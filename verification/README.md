# Artist tracker: a verified model of its delivery protocol and schedulers

The repository follows music artists, watches provider catalogues for their releases and notifies its members. This
project models the parts whose correctness is hardest to see from any single function, and proves what they are for.

**Delivery protocol.** Notifications wait in two queues (deliveries of events, deliveries of digest runs). Several
runners claim rows under a lease, send, and record the outcome; leases expire, destinations trip a circuit breaker,
members follow, unfollow, pause and change rules, operators retry and repair. All of them write the same columns.

- `Tables` holds the data model: a `Db` value is one committed state. `Transactions` says what each write transaction
  does to it. `Governing` says which follow decides the schedule of a delivery; `GoverningQueries` specifies the two
  queries that list candidate follows, each by its conditions and its order, and proves that they agree.
- `RowAutomaton` is the life of one queue row, `Invariants` the invariants of a committed state and a lemma for every
  transaction, `DeliverySystem` the whole protocol as a state machine: committed tables, a clock, and the work each
  runner has in flight. One step is one transaction or one piece of worker progress, so all interleavings are covered,
  including store calls that fail and workers that panic or vanish.
- `ProtocolSafety`, `RunSafety`, `ReachableFacts`, `HoldSafety`, `PauseSafety`, `Realignment` and `ClaimSelection` hold
  the main results. `PauseGaps` gives concrete runs for the exceptions that the pause theorems name, and `PauseRun` a
  run from the empty database in which a release is catalogued, admitted and paused. `ProtocolGaps` gives runs from the
  empty database for the exceptions of the other protocol theorems.
- `Eligibility`, `AdmissionOutcomes`, `HoldOutcomes`, `Realignment`, `CircuitHistory`, `ClaimGuards`, `Recovery` and
  `AttemptOutcomes` say what each transaction means in terms of table columns alone, without its specification function:
  who governs an event, what an admission queues, what a pause does to the queue, when a destination is paused, why a
  row is left out of a claim, what a recovery touches, and what one delivery attempt leaves behind.
- `NotificationStore.Store` is the store as a class. Its methods update the tables step by step, with the loops,
  buckets and chunks of the program, and each is proved to do what the specification function of its transaction says.
  `Batching` and `Allocation` hold the loops that only read. `DeliveryRunner.Runner` performs one delivery, and is
  proved to play exactly the worker steps of the state machine.

**Catalogue scheduling.** `CatalogScheduling` describes every exit of one artist synchronisation and proves exactly
which of them leave the artist due. `CatalogSync` is the runner as a class; it proves exactly what a pass takes off the
backlog, how passes drain it, and when they starve it. `SyncOutcomes` says whose answers are used and where the artist's
schedules end, for every answer and every failing write.

**Smaller cores.** `LogSink` (the asynchronous log sink, as an interleaving protocol), `RequestLimiter` (the shared
notification limiter), `Normalizer` (release records and their credits), `Titles` and `TitleMatching` (titles compared
across providers), `LegacyIPv4` (numeric hosts). `Ranking` and `Prelude` are vocabulary.

## Where the program and its documentation differ

- A pause can be undone. A worker that claimed a delivery before its follow was paused writes its own retry time
  (`internal/store/notifications.go:974-1037`); the conflict gate with no open evidence queues for now, also when a
  resolved hold is drained (`internal/store/notification_holds.go:43-46`); an edit of preferences or credits does not
  realign the queue, and may bring an open delivery under a pause that ends after its schedule.
  `PauseSafety.StepKeepsWaiting` shows that these three are all the ways, each with its exact condition. For edits that
  condition is read on the edited policy; `PauseSafety.EditUndercutsIff` narrows it to the deliveries whose release or
  preferences the edit changes, and `KeepsReadings` (it changes none) is sufficient, not necessary.
- The comment on `normalizedReleaseTitle` says that titles cannot collapse to the empty text. A title that is only a
  bracketed edition, such as "(Deluxe)" or "[2011 Remaster]", does; `Titles.EmptyIff` says exactly when. Symbols that
  have case are folded.
- Rescheduling after a rule change visits only the deliveries of the changed follows. That equals rescheduling the whole
  queue exactly when every other delivery is aligned already (`Realignment.LocalRealignIsGlobal`), which a rate-limited
  first attempt, for one, is not (`ProtocolGaps.LimitedAttemptStaysBehind`). What the local change does restore, from any
  state of the queue, is `Realignment.LocalRealignRestores`.
- Two ways of following do not reschedule at all (`internal/store/artists.go:398-410`,
  `internal/store/imports.go:191-205`). `PauseSafety.FollowOnlyKeepsWaiting` shows that this never undoes a pause.
- A worker that lost its lease can still change the row in one way: recording its own failure may trip the circuit of
  the destination, which blocks the row with the rest of the queue. `ProtocolSafety.LateWorkerOnlyTrips` is exact, and
  `ProtocolGaps.LateWorkerTrips` is a run in which it happens.
- An accepted message does not always end with its row sent, terminal or claimed by another worker: a cancellation of
  orphans or an unfollow may delete the row once the lease has run out (`ProtocolGaps.AcceptedSendDeleted`).
  `RunSafety.AcceptedSendEndsIff` shows that the row ends settled exactly when no such deletion takes it.
- The fallback after a lost claim finalises by row id, and the queue table lets SQLite hand out the id of a deleted row
  again. So the delivery of a later event can end as sent although nothing was sent for it
  (`ProtocolGaps.AnotherRowIsFinalised`); by the same theorem this too takes a deletion.
- A failed write of the health record after a lost lease ends the routine before the row is finalised
  (`internal/jobs/jobs.go:653-657`); `DeliverySystem` models that exit, and the settled-send result assumes working
  store calls.
- A synchronisation is meant never to leave an artist pinned at the front of the due queue
  (`internal/jobs/jobs.go:1793-1808`). One exit does although every write works: a MusicBrainz lookup that outlasts the
  client's own timeout (`internal/catalog/catalog.go:167`) is taken for a shutdown (`internal/jobs/jobs.go:1562-1564`)
  and returns without schedule or cooldown. `CatalogScheduling.TimedOutLookupStaysDue` is an input, `StaysDueIff` the
  exact condition; when 25 such artists lead the backlog, nobody behind them is reached
  (`CatalogSync.HangingLookupsStarve`, with `LastOfCrowdStarves` as an instance).
- A retried digest run keeps the status `failed` while its rows are open again; `RunInv` states what does hold.

## Modelling choices

- One transaction is one step. Ids and instants are mathematical integers; stored timestamps compare as instants, which
  holds for the texts the program writes up to the omitted trailing zeros of sub-second parts.
- The database chooses the ids of new rows, and may reuse ids of deleted ones: an admission carries ids that only have
  to be unused, and `Allocation.NewAdmission` shows that fitting ones always exist.
- The two queries for candidate follows (admission and recompute) are specified separately, by what their WHERE and
  ORDER BY clauses demand of the rows. Such a listing is unique, so whatever answers the queries, both sides rank the
  same follows in the same order.
- A runner has one delivery batch in flight at a time (`internal/jobs/jobs.go:848-850`), which is the hypothesis `Idle`
  of a claim step. Runner names are not blank; claims replace a blank one (`internal/store/notifications.go:689-692`),
  and `ReachableFacts.BlankOwnerReopensSent` shows what a blank one would do.
- Modes, types, roles and moments are enumerations of the values the schema admits; unknown release types count as
  always enabled, as in the program. Period keys of digests are opaque: the run a lookup returns is a parameter.
- Draining holds is a sequence of one step per hold, inside one method. Restoring a hold drains in the same transaction:
  `NotificationStore.Store.RestoreHold` does both, while the state machine takes them as separate steps, which only adds
  interleavings.
- Provider answers, failing writes and clock readings are parameters and range over everything. In scheduling, the
  intervals are at least an hour, as the configuration enforces (`internal/config/config.go:46-53`).

## Model

| member | source | states |
|---|---|---|
| Governing.AdmissionOrderIsOrdered | internal/store/release_helpers.go:690-712 | every credited artist occurs once, the canonical one first, the rest by ascending id |
| Governing.SelectGoverningCandidate | internal/store/governing_follow.go:49-75 | returns the leftmost eligible candidate of maximal configured-mode priority, nothing exactly when none is eligible |
| Governing.LeftmostBestIsUnique | internal/store/governing_follow.go:49-75 | there is only one such position, so the clock and the search order play no part |
| Governing.GovernorWins | internal/store/governing_follow.go:49-75 | whoever governs contends and outranks every other contender; without a governor nobody contends or the type is off |
| Governing.GovernorPrefersDelivery | internal/store/governing_follow.go:62-72 | an immediate follow, paused or not, is never overruled by a digest-only or disabled one |
| Governing.DeferralOnlyEnds | internal/store/follow_notification_rules.go:112-122 | as time passes a deferral keeps its end while it lasts and never comes back |
| Governing.GovernorIsLocal | internal/store/governing_follow.go:91-204 | changing some follows of one member leaves the governor of every uncorrelated event alone |
| Eligibility.ChosenIff | internal/store/governing_follow.go:49-75 | a follow is chosen exactly when its own columns accept the event (role, type, moment, and the account where it has a say) and every other accepting follow comes behind it: immediate before digest before disabled, then canonical, then by id |
| Eligibility.ContendsIff | internal/store/follow_notification_rules.go:46-150 | a follow is considered exactly when it includes the appearance or primary credit it has, takes the type with compilations ahead of the primary type, and takes the moment |
| Eligibility.AcceptedIsGoverned | internal/store/release_helpers.go:733-747 | an event of a type the account takes has a governing follow as soon as one follow accepts it |
| Eligibility.DefersIff | internal/store/follow_notification_rules.go:112-122 | deliveries are deferred exactly by an inheriting or immediate governing follow that is paused beyond now, to the end of its pause |
| Eligibility.UngovernedIsNotDeferred | internal/store/governing_follow.go:91-204 | without a governing follow nothing is deferred |
| GoverningQueries.ListingIsUnique | internal/store/release_helpers.go:690-712 | any two answers to the admission query, each only known to list exactly the joined follows, canonical first and then by id, are equal |
| GoverningQueries.GroupIsListing | internal/store/governing_follow.go:116-181 | in any answer to the recompute query, the rows of one event answer the admission query for that event |
| GoverningQueries.QueriesAgree | internal/store/governing_follow.go:116-181 | whatever the two queries answer, admission and recompute rank the same follows in the same order |
| GoverningQueries.GoverningFollow | internal/store/release_helpers.go:740-762 | any answer to the admission query yields the governor of the event |
| GoverningQueries.GroupByEvent | internal/store/governing_follow.go:139-181 | the map filled row by row groups the rows by event, and lists each event that has a candidate |
| GoverningQueries.ResolveChunk | internal/store/governing_follow.go:91-204 | any answer to the recompute query yields exactly the governors of the events of the chunk |
| GoverningQueries.QueryChunk | internal/store/governing_follow.go:116-134 | an answer to the recompute query exists for every chunk, duplicates and unknown events included |
| GoverningQueries.GoverningFollows | internal/store/governing_follow.go:91-204 | chunk by chunk, exactly the governors of the requested events |
| RowAutomaton.EdgeKeepsRowInv | internal/store/notifications.go:884-1148 | every way a row moves keeps leases on pending rows only and attempts on the ladder, and never retargets it |
| RowAutomaton.TerminalRows | internal/store/notifications.go:1151-1181 | a sent row never moves, and a failed one only by an explicit retry |
| Invariants.RetryFailedKeeps | internal/store/notifications.go:411-535 | a destination retry keeps every invariant, including the status of digest runs |
| Invariants.ReleaseBlockedKeeps | internal/store/notifications.go:553-634 | releasing pause-blocked rows keeps every invariant, no paused destination gets pending work |
| Invariants.CancelOrphanedKeeps | internal/store/notifications.go:649-668 | cancelling orphans keeps every invariant and deletes open rows only |
| Invariants.RecoverExpiredKeeps | internal/store/notifications.go:1153-1189 | recovering expired leases keeps every invariant |
| Invariants.RepairSkewedKeeps | internal/store/notifications.go:1251-1314 | repairing clock skew keeps every invariant |
| Recovery.RetryOutcome | internal/store/notifications.go:411-535 | every failed or blocked row of the own destination starts over, now or at the end of its pause, and no other row is touched |
| Recovery.ReleaseOutcome | internal/store/notifications.go:553-634 | exactly the blocked deliveries that nothing blocks any more become runnable, on their old schedule |
| Recovery.RepairOutcome | internal/store/notifications.go:1251-1314 | every open unclaimed row of either queue beyond the horizon becomes due, unless a pause explains it |
| Recovery.RecoverOutcome | internal/store/notifications.go:1153-1189 | leases that ran out are cleared in both queues, live ones stay |
| Recovery.CancelOutcome | internal/store/notifications.go:649-668 | cancellation takes exactly the orphans away |
| Recovery.UnfollowDeletes | internal/store/artists.go:152-193 | an unfollow takes exactly the deliveries it orphans, among those of the artist's releases |
| Invariants.LeaseKeeps | internal/store/notifications.go:697-738 | leasing due rows keeps every invariant and changes only lease columns |
| Invariants.MarkSentKeeps | internal/store/notifications.go:1039-1069 | recording a send keeps every invariant; the digest run gets the status its rows imply |
| Invariants.FinalizeSentKeeps | internal/store/notifications.go:1080-1109 | finalising after a lost lease keeps every invariant |
| Invariants.MarkFailedKeeps | internal/store/notifications.go:1111-1148 | recording the next failure keeps the ladder and the status of digest runs |
| Invariants.MarkRateLimitedKeeps | internal/store/notifications.go:1011-1037 | a rate limit keeps every invariant and the attempts |
| Invariants.FinishAttemptKeeps | internal/store/notifications.go:310-392 | health and circuit stay consistent: paused means five failures in a row and no pending row in either queue |
| Invariants.RealignKeeps | internal/store/follow_notification_rules.go:461-589 | realignment keeps every invariant and moves only schedules |
| Invariants.FollowKeeps | internal/store/artists.go:106-143 | following keeps every invariant |
| Invariants.FollowOnlyKeeps | internal/store/artists.go:398-410 | following without rescheduling keeps every invariant |
| Invariants.UnfollowKeeps | internal/store/artists.go:152-193 | unfollowing keeps every invariant |
| Invariants.EnqueueKeeps | internal/store/release_helpers.go:690-798 | an admission keeps every invariant, disturbs no hold, and leaves the event on record when it reports it admitted |
| AdmissionOutcomes.AdmissionOutcome | internal/store/release_helpers.go:690-798 | an accepted event goes through the gate, or is recorded and queued as the columns of its governing follow say: now, at the end of its pause, or not at all |
| AdmissionOutcomes.UnacceptedLeavesNoTrace | internal/store/release_helpers.go:733-751 | an event that no follow accepts leaves no trace |
| AdmissionOutcomes.GateOutcome | internal/store/notification_holds.go:18-61 | the gate: recorded before, refused before, no evidence, held before, or a new hold |
| AdmissionOutcomes.FanOutReaches | internal/store/release_helpers.go:848-858 | exactly one new row for every enabled own destination that is old enough and has none, blocked if it is paused or unsupported |
| AdmissionOutcomes.DestinationOutcome | internal/store/notifications.go:70-100 | a new destination is the member's own, enabled, and counts from the moment it was added |
| AdmissionOutcomes.DigestOutcome | internal/store/calendar.go:315-369 | a new period gets its run and rows, an empty pending run is completed, any other is left alone |
| Invariants.HoldConflictingKeeps | internal/store/notification_holds.go:18-61 | the conflict gate keeps every invariant and never disturbs an existing hold |
| Invariants.DrainHoldKeeps | internal/store/notification_holds.go:97-153 | re-admitting a held event keeps every invariant |
| Invariants.RestoreHoldKeeps | internal/store/notification_holds.go:347-352 | restoring a discarded hold, before it is drained, keeps holds distinct |
| Invariants.QueueDigestKeeps | internal/store/calendar.go:315-369 | creating or completing a digest run keeps every invariant, including the status of all runs |
| DeliverySystem.NextKeeps | internal/jobs/jobs.go:618-782 | every step of every runner, member, operator and the clock keeps the tables and all work in flight consistent |
| DeliverySystem.ReachableStatesAreSafe | internal/jobs/jobs.go:618-782 | every state of every run from an empty database satisfies all invariants |
| ReachableFacts.RowsFollowTheLadder | internal/store/notifications.go:942-972 | in every reachable state open rows have at most 4 attempts, failed rows 5, sent rows 1 to 5, and claimed rows are pending |
| ReachableFacts.NothingIsQueuedTwice | internal/store/release_helpers.go:827-860 | in every reachable state a member, release and moment has one event, and an event and destination one delivery |
| ReachableFacts.DeliveriesStayHome | internal/store/release_helpers.go:852-858 | a delivery goes to a destination of the event's member that is no newer than the event |
| ReachableFacts.HoldsAreDistinct | internal/store/notification_holds.go:18-61 | in every reachable state a key has one held or discarded hold, and a released hold has its event |
| ReachableFacts.RetryLadder | internal/store/notifications.go:942-972 | retries follow after 2, 4, 8 and 16 minutes, the fifth failure is final |
| DeliverySystem.RateLimitRetryAt | internal/jobs/jobs.go:600-614 | a rate limit defers by the provider's delay, kept within a second and an hour |
| ReachableFacts.AuditMatchesRow | internal/jobs/jobs.go:720-733 | the next retry of the audit is the schedule the row was put on, and absent exactly when the row failed for good |
| RunSafety.HealthShowsRowSchedule | internal/jobs/jobs.go:712-738 | the two store calls of a failed attempt compute the retry separately; whatever others do in between, the health record shows the schedule the first call put the row on, none once it failed for good, and the second call leaves the row unless it pauses the destination |
| AttemptOutcomes.AttemptOutcome | internal/jobs/jobs.go:618-738 | what one attempt writes, in which order, for every answer and every failing store call |
| AttemptOutcomes.AbortOutcome | internal/jobs/jobs.go:740-782 | a panic counts as a failed attempt of the row; a vanished worker leaves it to its lease |
| AttemptOutcomes.SentOutcome | internal/store/notifications.go:1039-1069 | a held claim is completed: sent, one attempt more, unclaimed, no other row touched |
| AttemptOutcomes.FinalOutcome | internal/store/notifications.go:1080-1109 | only an open row that nobody claims is completed afterwards |
| AttemptOutcomes.FailedOutcome | internal/store/notifications.go:1111-1148 | a failure puts the claimed row 2, 4, 8 or 16 minutes ahead, and gives it up on the fifth |
| AttemptOutcomes.LimitedOutcome | internal/store/notifications.go:1011-1037 | a rate limit puts the claimed row back for the given instant without counting |
| ReachableFacts.BlankOwnerReopensSent | internal/store/notifications.go:974-989 | a failure recorded with a blank owner reopens a sent row, and with a named one leaves it alone |
| ProtocolSafety.StepMovesRow | internal/store/notifications.go:884-1314 | whatever step is taken, a row moves along an edge of its automaton or is claimed |
| ProtocolSafety.SentIsForever | internal/store/notifications.go:1151-1181 | a sent row is never changed or deleted in any run |
| ProtocolSafety.FailedIsLeftOnlyByRetry | internal/store/notifications.go:411-535 | a failed row stays unless its own destination is retried explicitly |
| ProtocolSafety.HeldClaimFreezesRow | internal/store/notifications.go:697-738 | no step changes attempts or status of a row that stays claimed, handed over or not |
| RunSafety.ClaimedRowIsFrozen | internal/store/notifications.go:697-738 | nor does any run in which the row is never released |
| ProtocolSafety.LeasesNeverOverlap | internal/store/notifications.go:679-702 | in one step a claim passes from one runner to another only after its lease has run out |
| RunSafety.ClaimsNeverOverlap | internal/store/notifications.go:679-702 | of any two claims of a row in a run without a release in between, the second is made only when the lease of the first has run out |
| RunSafety.LeaseOnlyGrowsInRuns | internal/store/notifications.go:697-738 | the lease of a row that stays claimed never ends earlier, in any run |
| ProtocolSafety.LiveLeaseIsRespected | internal/store/notifications.go:646-660 | only its own worker or the circuit breaker ends a live lease |
| ProtocolSafety.LateWorkerOnlyTrips | internal/jobs/jobs.go:645-683 | a worker whose row another runner claimed changes it exactly when recording its failure trips the destination's circuit |
| ProtocolGaps.LateWorkerTrips | internal/store/notifications.go:356-391 | a run from the empty database with four failures, a fifth attempt that outlasts its lease, and another runner's live claim, blocked by the failure recorded late |
| ProtocolSafety.AcceptedSendSettles | internal/jobs/jobs.go:645-683 | the last store call after an accepted send leaves the row, if it still exists, sent, terminal or claimed by another worker |
| RunSafety.AcceptedSendSettlesInRuns | internal/jobs/jobs.go:645-683 | with own store calls that work, that is how the worker leaves the row, if it still exists, in every interleaving of its calls with the steps of everyone else |
| RunSafety.AcceptedSendEndsIff | internal/jobs/jobs.go:645-683 | from its claim to the moment the worker lets go, the row is there throughout and ends sent, terminal or claimed by another worker, exactly when no cancellation or unfollow of the run deletes it; digest rows always are |
| RunSafety.StaysIff | internal/store/notifications.go:636-668 | a row stays through a run, for the same parent and destination, exactly when none of its cancellations and unfollows deletes it |
| ProtocolGaps.AcceptedSendDeleted | internal/store/artists.go:152-193 | a run from the empty database in which the message is accepted after the lease has run out and an unfollow deletes its row |
| ProtocolGaps.AnotherRowIsFinalised | internal/store/notifications.go:913-940 | a run in which the deleted row's id goes to the delivery of a later event, which the late worker marks sent although nothing was sent for it |
| ProtocolSafety.AcceptedSendTerminates | internal/jobs/jobs.go:645-683 | three store calls at most separate an accepted message from that end |
| ProtocolSafety.PausedDestinationsRest | internal/store/notifications.go:356-391 | a destination is paused exactly when its counter has reached five, and then has no pending row in either queue |
| CircuitHistory.PausedIffFiveInARow | internal/store/notifications.go:310-392 | in every run from an empty database a destination is paused exactly when its recorded outcomes hold five rejections in a row and no retry since; otherwise its counter is the number of rejections they end with; rate limits leave no mark |
| CircuitHistory.HealthOutcome | internal/store/notifications.go:310-392 | an acceptance heals an unpaused destination to no failures and no retry instant and changes nothing of a paused one; a rate limit only defers; a rejection counts |
| CircuitHistory.QueueOutcome | internal/store/notifications.go:368-389 | only the rejection that pauses it blocks rows: the pending ones of the destination, in both queues |
| ProtocolSafety.OnlyRetryUnpauses | internal/store/notifications.go:340-355 | late successes, failures and rate limits never un-pause a destination, only its owner's retry does |
| ProtocolSafety.DeliveriesDisappearOnlyAsOrphans | internal/store/notifications.go:636-668 | a delivery disappears only when its member follows nobody on the release and no live claim exists |
| ProtocolSafety.DeletionIff | internal/store/notifications.go:636-668 | a step deletes a row exactly when it is a cancellation that finds it orphaned, or an unfollow of an artist of the release that leaves it orphaned; digest rows are never deleted |
| ProtocolSafety.DigestRunStatus | internal/store/notifications.go:1062-1067 | a run without open rows is failed if a row failed, else sent; a run with an open row is never sent |
| ProtocolSafety.SettledPeriodQueuesNothing | internal/store/calendar.go:448-468 | the cheap pre-check is exact: a settled period queues nothing, and an unsettled one queues unless nobody can receive it |
| ProtocolSafety.AdmissionIsIdempotent | internal/store/release_helpers.go:848-858 | admitting the same moment again, at any clock reading, changes nothing |
| HoldSafety.ReleasedKeysAreNeverHeldAgain | internal/store/notification_holds.go:19-26 | a new hold appears only for a key without an event, so never for one that was released |
| HoldSafety.ReleasedIsForever | internal/store/notification_holds.go:330-377 | in any run a hold keeps its key and is never lost, and a released one stays released |
| HoldSafety.AdmittedIsNeverHeldAgain | internal/store/notification_holds.go:19-26 | once a moment has its event, no run ever holds it again |
| HoldSafety.SuppressedReadmissionKeepsHold | internal/store/notification_holds.go:129-146 | re-admission releases a hold exactly when the event was admitted, and leaves it held otherwise |
| HoldOutcomes.DecisionOutcome | internal/store/notification_holds.go:330-377 | a member discards own held alerts and takes back own discarded ones, of followed releases only |
| HoldOutcomes.ReleaseOutcome | internal/store/notification_holds.go:97-153 | notifying anyway and draining admit the held event again and release the hold exactly if it was admitted |
| HoldOutcomes.ApprovalOutcome | internal/store/notification_holds.go:160-200 | an approval reaches members who follow the release, were never told and refused nothing of it |
| PauseSafety.StepKeepsWaiting | internal/store/follow_notification_rules.go:428-589 | every step keeps paused deliveries scheduled at or after the end of the pause, except exactly the late writes, gate admissions and undercutting edits of `UndoesPause` |
| PauseSafety.PausesHold | internal/store/follow_notification_rules.go:447-460 | runs without such steps keep the whole queue waiting out its pauses |
| PauseSafety.NoEarlyClaim | internal/store/notifications.go:697-726 | no runner claims a delivery before its governing follow resumes |
| PauseSafety.EnqueueWaits | internal/store/release_helpers.go:766-793 | an admission respects every pause exactly when it does not pass the conflict gate under a paused governor |
| PauseSafety.EditUndercutsIff | internal/store/notifications.go:1644-1656 | an edit undercuts a pause exactly when an open delivery whose release or preferences it changes is then governed by a follow paused beyond its schedule |
| PauseSafety.KeptReadingsWait | internal/store/notifications.go:1644-1656 | an edit of catalogue or preferences that keeps what open deliveries read undercuts no pause |
| PauseSafety.NewReleasesKeepReadings | internal/store/release_helpers.go:112-125 | cataloguing releases that no event names yet is always such an edit |
| PauseSafety.NewFollowGovernsOrNothing | internal/store/governing_follow.go:49-75 | a new follow governs an event itself, by the default rule, or changes nothing about who does |
| PauseSafety.FollowOnlyKeepsWaiting | internal/store/imports.go:191-205 | a follow inserted without rescheduling undoes no pause |
| PauseSafety.ActWaits | internal/store/notifications.go:974-1037 | a worker's record respects every pause exactly when it does not undercut the pause of its own claimed row |
| PauseSafety.RealignRestores | internal/store/follow_notification_rules.go:461-589 | realigning for the changed follows restores the waiting of the whole queue |
| PauseSafety.RuleStepIsLocal | internal/store/follow_notification_rules.go:273-445 | a rule, mode, pause, follow or unfollow step moves no governor of an event that names none of its artists |
| PauseSafety.StaysUndisturbed | internal/store/follow_notification_rules.go:428-445 | while rule steps hit no claimed delivery and edits keep what open deliveries read, none is in flight under a paused follow |
| PauseSafety.ReachableStatesArePauseSafe | internal/store/follow_notification_rules.go:428-589 | in every state of every such run from an empty database, whose admissions do not leak through the gate, a paused delivery is scheduled after its pause and held by nobody |
| PauseRun.ConsiderateRunWithPause | internal/store/follow_notification_rules.go:428-445 | such a run catalogues a release, admits it, pauses its follow, and ends with the delivery put at the end of the pause |
| PauseGaps.PauseUndoneByLateFailure | internal/store/notifications.go:974-1001 | a follow paused for a day while its delivery is sent; the failure puts the row two minutes ahead |
| PauseGaps.PauseMissedByGate | internal/store/notification_holds.go:43-46 | with conflict holds on and no evidence, an alert of a paused follow is queued for now |
| PauseGaps.PreferenceEditUndoes | internal/store/notifications.go:1644-1656 | switching announcements on brings a queued delivery under a pause without moving it |
| Realignment.RealignedCases | internal/store/follow_notification_rules.go:537-560 | the new schedule is the end of the pause, or a later backoff; without a pause now at the latest for an unattempted delivery, unchanged for an attempted or ungoverned one |
| Realignment.RealignFollows | internal/store/follow_notification_rules.go:461-589 | after a realignment every open delivery these follows govern has the schedule the columns of its rule ask for |
| Realignment.RealignSpares | internal/store/follow_notification_rules.go:474-518 | deliveries of other members, or of releases that list none of the artists, keep their rows |
| Realignment.PauseOutcome | internal/store/follow_notification_rules.go:428-445 | pausing or lifting a pause changes that column alone and reschedules every delivery the follow then governs; a missing follow changes nothing |
| Realignment.LiftingAPauseReleases | internal/store/follow_notification_rules.go:554-558 | after a pause is lifted every unattempted open delivery the follow governs is due |
| Realignment.UpdateOutcome | internal/store/follow_notification_rules.go:321-357 | all requested follows get the rule and their deliveries its schedule, or nothing changes |
| Realignment.ModeOutcome | internal/store/follow_notification_rules.go:366-420 | only the mode of existing rule rows changes, for all requested follows or none, and their deliveries are rescheduled |
| Realignment.FollowOutcome | internal/store/artists.go:106-143 | a new follow gets the default rule, an old one keeps its own, and deliveries it governs are rescheduled |
| Realignment.UnfollowOutcome | internal/store/artists.go:152-193 | an unfollow removes follow and rule and nothing else from the policy |
| Realignment.RealignIsIdempotent | internal/store/follow_notification_rules.go:461-589 | realigning twice at one instant does what realigning once does |
| Realignment.LocalRealignIsGlobal | internal/store/follow_notification_rules.go:447-460 | realigning for a local change does what rescheduling the whole queue does exactly when every delivery out of its reach is aligned already |
| ProtocolGaps.LimitedAttemptStaysBehind | internal/store/notifications.go:1011-1037 | a run from the empty database whose rate-limited first attempt makes the two differ |
| Realignment.LocalRealignRestores | internal/store/follow_notification_rules.go:447-460 | from any state of the queue, deliveries within reach of a rule change end aligned with their present governor; all others keep row, governor and deferral, and are aligned exactly if they were before |
| ClaimSelection.ClaimTakesTheFirst | internal/store/notifications.go:697-718 | the claimed rows are the first `limit`, or all, of the rows within their member's share, by next attempt and id |
| ClaimSelection.SharesAreFair | internal/store/notifications.go:708-716 | each member's share is full or holds all the member's due rows, oldest first |
| ClaimSelection.OneMemberTakesAll | internal/store/notifications.go:714-716 | when one member alone waits, the claim takes that member's first `limit` rows |
| ClaimSelection.NobodyTakesMore | internal/store/notifications.go:708-716 | while others wait nobody gets more than five rows of a batch |
| ClaimSelection.ClaimIsAStep | internal/store/notifications.go:685-738 | the claim transaction leases due rows to a named owner into the future, as a claim step demands |
| ClaimSelection.ClaimIsFair | internal/store/notifications.go:697-738 | a due row is passed over only when the claim is full of earlier ones, or its member already has five earlier ones in it while others wait |
| ClaimSelection.AtMostFive | internal/store/notifications.go:708-716 | while several members wait nobody has more than five rows in a claim |
| ClaimSelection.LeaseTerms | internal/store/notifications.go:685-696 | the lease lasts as long as asked, or two minutes; a nameless runner gets a name |
| ClaimGuards.LeftOutIff | internal/store/notifications.go:697-718 | a row is left out of a claim exactly for one of seven reasons, the provider cooldown of its destination among them |
| ClaimGuards.OthersKeepHealth | internal/store/notifications.go:310-392 | only recorded attempts and retries of a destination write its health record |
| ClaimGuards.RateLimitBarsClaims | internal/store/notifications.go:28-28 | after a recorded rate limit no claim of any run takes a row of the destination before the instant asked for, until its health record is rewritten |
| Batching.QueuedFor | internal/store/follow_notification_rules.go:474-518 | the per-artist queries list each delivery a change could affect exactly once |
| Batching.FileTargets | internal/store/follow_notification_rules.go:530-562 | every delivery that moves is filed once, under its target instant |
| Batching.SplitDeferred | internal/store/notifications.go:452-465 | separates rows no pause holds back from the others, filed under the end of their pause |
| Batching.Undeferred | internal/store/notifications.go:590-596 | leaves out exactly the rows a pause holds back |
| Batching.BucketCarriedOut | internal/store/follow_notification_rules.go:563-587 | one bucket more carries out the plan for one target more, in whatever order buckets come |
| Allocation.NewAdmission | internal/store/release_helpers.go:827-860 | whatever is admitted, fitting row ids exist: the existing event or a new one, and one new row per destination due one |
| NotificationStore.Store.UpdateInChunks | internal/store/follow_notification_rules.go:564-586 | updating in chunks of 200 equals one pointwise update |
| NotificationStore.Store.ApplyBuckets | internal/store/follow_notification_rules.go:563-587 | applying the buckets in any order equals one pointwise update by plan |
| NotificationStore.Store.RealignQueuedDeliveries | internal/store/follow_notification_rules.go:461-589 | collecting, filing and updating does what the pointwise realignment says |
| NotificationStore.Store.Follow | internal/store/artists.go:106-143 | keeps an existing rule, adds the default otherwise, and realigns |
| NotificationStore.Store.FollowOnly | internal/store/artists.go:398-410 | keeps an existing rule, adds the default otherwise, and leaves the queue alone |
| NotificationStore.Store.Unfollow | internal/store/artists.go:152-193 | removes follow and rule, then orphans, then realigns; a missing follow changes nothing |
| NotificationStore.Store.UpdateFollowNotificationRules | internal/store/follow_notification_rules.go:321-357 | applies to all requested follows or none |
| NotificationStore.Store.SetFollowNotificationDeliveryMode | internal/store/follow_notification_rules.go:366-420 | changes only the mode of existing rules, for all requested follows or none |
| NotificationStore.Store.PauseFollowNotificationRule | internal/store/follow_notification_rules.go:428-445 | rule and realignment change together |
| NotificationStore.Store.RetryFailedDeliveries | internal/store/notifications.go:411-535 | split, chunks and buckets requeue each row now or at the end of its pause; the circuit closes |
| NotificationStore.Store.ReleasePauseBlockedDeliveries | internal/store/notifications.go:553-634 | exactly the blocked rows that nothing blocks any more become pending |
| NotificationStore.Store.RepairClockSkewedDeliveries | internal/store/notifications.go:1251-1314 | exactly the parked rows no pause explains become due |
| NotificationStore.Store.ClaimDue | internal/store/notifications.go:685-882 | leasing row by row leases exactly the selected rows, and returns them |
| NotificationStore.Store.MarkSentOwned | internal/store/notifications.go:884-906 | the owner-scoped update; a lost claim is reported and changes nothing |
| NotificationStore.Store.FinalizeSent | internal/store/notifications.go:913-940 | completes an unclaimed open row only |
| NotificationStore.Store.MarkFailedOwned | internal/store/notifications.go:974-1001 | puts the row on the retry schedule of the attempt, with the digest run following |
| NotificationStore.Store.MarkRateLimitedOwned | internal/store/notifications.go:1011-1037 | reschedules without counting an attempt |
| NotificationStore.Store.FinishDeliveryAttempt | internal/store/notifications.go:310-406 | health first, then the queues of a destination that just paused |
| NotificationStore.Store.EnqueueEvent | internal/store/release_helpers.go:690-798 | admits through governor, gate and fan-out as specified, and reports it |
| NotificationStore.Store.HoldConflicting | internal/store/notification_holds.go:18-61 | the gate in its order: event, discard, evidence, hold |
| NotificationStore.Store.DrainHolds | internal/store/notification_holds.go:97-153 | re-admits every reviewable hold of the release by ascending id, each as one drain step |
| NotificationStore.Store.RestoreHold | internal/store/notification_holds.go:330-353 | restores a discarded hold of the member and re-admits it and every other held one of the release at once; anything else is not found and changes nothing |
| NotificationStore.Store.QueueDigest | internal/store/calendar.go:315-369 | creates the run or completes an empty pending one, and leaves any other alone |
| DeliveryRunner.Runner.PerformDelivery | internal/jobs/jobs.go:618-738 | performs exactly the worker steps of the protocol, for every provider answer and every failing store call |
| CatalogScheduling.SyncLeavesNothingDue | internal/jobs/jobs.go:1534-1808 | apart from an identity lookup that times out, no exit of a synchronisation leaves the artist due, for all answers, cooldowns, missing credentials and failed writes followed by the retry write |
| CatalogScheduling.StaysDueIff | internal/jobs/jobs.go:1534-1610 | with a working retry write a due artist stays due exactly when its identity is unverified and its lookup is made and times out, or its outcome could not be recorded |
| SyncOutcomes.DueIff | internal/store/artists.go:795-810 | due is whoever was never checked or whose check has come by either schedule, unless the identity is given up |
| SyncOutcomes.WhoDelivers | internal/jobs/providers.go:68-152 | exactly whose releases are used: Spotify in its turn, iTunes when Spotify had none, MusicBrainz when iTunes had nothing complete, none of them while cooling down |
| SyncOutcomes.WhatFails | internal/jobs/providers.go:68-152 | which answers count as a failure, and when MusicBrainz may fill a gap |
| SyncOutcomes.WhatCoolsDown | internal/jobs/providers.go:154-470 | a provider that answers ends its cooldown, one that limits or fails starts or extends it, nobody else touches it |
| SyncOutcomes.SyncOutcome | internal/jobs/jobs.go:1620-1751 | with working writes, both schedules and the last check after every combination of answers |
| SyncOutcomes.WriteOutcome | internal/jobs/jobs.go:1620-1808 | the artist after every combination of answers and failing writes |
| SyncOutcomes.DeliveryIsOnSchedule | internal/jobs/jobs.go:1672-1690 | releases from any provider, with no gap left, put the artist on its interval and mark it checked |
| SyncOutcomes.StreakOutcome | internal/store/artists.go:923-968 | only a delivery by Spotify moves the streak of unchanged checks |
| SyncOutcomes.IdentityOutcome | internal/jobs/jobs.go:1539-1606 | an unverified identity is postponed, counted, left alone or verified, with schedules and cooldown spelled out |
| SyncOutcomes.RequestOutcome | internal/store/artist_identity.go:103-122 | an explicit request makes the artist due and starts a doubtful identity over |
| SyncOutcomes.LivelyDelay | internal/store/schema.go:746-756 | a lively catalogue is polled half to one and a half intervals ahead, spread by the artist |
| SyncOutcomes.QuietDelay | internal/store/artists.go:923-968 | a quiet one backs off to two, four and eight intervals, never beyond a week |
| CatalogScheduling.TimedOutLookupStaysDue | internal/jobs/jobs.go:1561-1564 | an imported artist whose lookup times out stays due although every write works, and no cooldown is set |
| CatalogScheduling.CooldownLasts | internal/jobs/jobs.go:1542-1554 | while MusicBrainz is cooling down no lookup is made, and no synchronisation ends the cooldown |
| CatalogScheduling.Cadence | internal/jobs/jobs.go:1640-1700 | after releases the next check is an interval away (or when MusicBrainz may fill a partial catalogue), after a failure a quarter of an hour |
| CatalogScheduling.DeferredAsksNobody | internal/jobs/providers.go:98-128 | a check that Spotify's cadence defers asks no fallback provider and touches no cooldown |
| CatalogScheduling.ObserveIsOk | internal/jobs/providers.go:68-152 | a due Spotify check is attempted or suppressed by a cooldown that lies ahead |
| CatalogScheduling.AdaptiveDelayBounds | internal/store/artists.go:923-968 | an adaptive check is at least half an hour away, a quiet catalogue waits at most a week |
| CatalogScheduling.RetryIsNotDue | internal/store/artists.go:886-901 | the retry write moves every due schedule of the artist ahead |
| CatalogScheduling.RejectedIdentity | internal/store/artist_identity.go:69-122 | the fifth rejection is terminal, each one pushes both schedules, and an explicit request starts over |
| CatalogSync.BatchIsOldest | internal/store/artists.go:795-837 | a pass takes the 25 oldest due artists, or all |
| CatalogSync.LongestWaitingFirst | internal/store/artists.go:795-837 | who is left out of a full batch of 25 has waited no longer than anyone in it |
| CatalogSync.PassShrinksBacklog | internal/jobs/jobs.go:1490-1532 | a pass takes exactly those members of its batch off the backlog that are not due after their turn |
| CatalogSync.PassLeaves | internal/jobs/jobs.go:1490-1532 | with the retry write working, the members of the batch that stay due are exactly those whose identity check comes to nothing under the cooldowns their turn finds; everyone else is left alone |
| CatalogSync.CooldownProtects | internal/jobs/jobs.go:1542-1554 | while MusicBrainz is cooling down, and identity writes work, nobody stays due |
| CatalogSync.HangingLookupsStarve | internal/jobs/jobs.go:1561-1564 | when the 25 oldest due artists all await their identity and every lookup times out, no pass now or later changes anything, and each takes the same 25 as long as whoever becomes due stands behind them |
| CatalogSync.LastOfCrowdStarves | internal/jobs/jobs.go:1561-1564 | an instance with 26 due artists, the last of them in no batch |
| CatalogSync.PassesDrain | internal/jobs/jobs.go:1490-1532 | repeated passes at one instant, each leaving at most m < 25 artists stuck, drain the backlog by 25 - m each down to m; without any stuck, exactly by 25 each |
| CatalogSync.SyncRunner.Sync | internal/jobs/jobs.go:1534-1751 | one synchronisation does what its specification says, for artist and cooldowns |
| CatalogSync.SyncRunner.MarkSpotifyCheckedAdaptive | internal/store/artists.go:923-968 | the doubling loop computes the adaptive delay |
| CatalogSync.SyncRunner.SyncArtists | internal/jobs/jobs.go:1490-1532 | the loop takes the batch in the order of the backlog and leaves artists and cooldowns as specified turn by turn; the backlog loses the batch except those whose identity check comes to nothing |
| LogSink.NoSilentLoss | internal/logging/async.go:44-113 | in every interleaving, once writer and calls are done each accepted entry was handed over or counted; order is kept and nothing is handed over twice |
| LogSink.AcceptedBeforeCloseIsWritten | internal/logging/async.go:44-94 | an entry whose call returned without counting a drop is written before the writer leaves |
| LogSink.NextKeeps | internal/logging/async.go:44-113 | every atomic step of calls, writer and close keeps order, counts and the closing protocol |
| LogSink.LossNeedsCause | internal/logging/async.go:73-94 | an entry is counted as lost only when the buffer is full or the sink closed |
| LogSink.RoomIsUsed | internal/logging/async.go:73-94 | with room in the buffer the entry is buffered behind the others, and nothing is counted |
| LogSink.RoomyRunsLoseNothing | internal/logging/async.go:73-94 | a run that finds room and the sink open loses nothing |
| LogSink.ClosingEnds | internal/logging/async.go:44-113 | from every state the sink can be brought to rest, within a bounded number of steps of any kind but new calls |
| LogSink.StepsRunOut | internal/logging/async.go:44-113 | every such step brings it nearer |
| LogSink.ErrorsAreCounted | internal/logging/async.go:63-71 | the error counter is the number of failed writes |
| LogSink.ClosedRefuses | internal/logging/async.go:73-77 | a call that finds the sink closed leaves no trace |
| RequestLimiter.WindowBound | internal/notify/notify.go:100-104 | slots an interval apart put at most ceil(length / interval) of them into a window |
| RequestLimiter.RateBound | internal/notify/notify.go:159-209 | for any senders, bans and clock readings every window obeys that bound |
| RequestLimiter.FreshRateBound | internal/notify/notify.go:106-209 | every run of a limiter from its first use on obeys it |
| RequestLimiter.StartOn | internal/notify/notify.go:159-184 | the limiter object takes the start of a sender as the state machine does |
| RequestLimiter.BanOn | internal/notify/notify.go:211-228 | and every ban |
| RequestLimiter.PassingIsTimely | internal/notify/notify.go:186-209 | no sender passes before its slot, or inside its key's cooldown at its last check |
| RequestLimiter.BansAreIndependent | internal/notify/notify.go:211-228 | a ban of one key changes nothing for senders of another |
| RequestLimiter.BanOutcome | internal/notify/notify.go:211-228 | a ban lasts for its delay, an hour at most, unless a longer one stands |
| RequestLimiter.BannedKeysDoNotPass | internal/notify/notify.go:159-228 | until a sender of the key reads the clock past the end of the ban, none of them gets through, whatever the others do |
| RequestLimiter.StartOutcome | internal/notify/notify.go:159-184 | only a banned key is refused; everyone else gets the earliest slot that keeps the pace |
| RequestLimiter.FireOutcome | internal/notify/notify.go:196-206 | a timer that fires lets its sender through unless the key was banned meanwhile |
| RequestLimiter.Limiter.Enter | internal/notify/notify.go:159-184 | the first locked section refuses or reserves the next slot |
| RequestLimiter.Limiter.Wake | internal/notify/notify.go:196-206 | the second locked section looks at the cooldown again |
| RequestLimiter.Limiter.Cooldown | internal/notify/notify.go:211-228 | cooldowns are bounded and only extended |
| Normalizer.MergeReleaseCredits | internal/catalog/catalog.go:693-711 | merging unites the credit keys and keeps the existing credits in front |
| Normalizer.KeyIsFaithful | internal/catalog/catalog.go:713-715 | keys agree exactly when provider, id, role and track do, as long as none holds a NUL |
| Normalizer.Normalize | internal/catalog/catalog.go:665-691 | the loop yields one collapsed record per id, in order of first appearance |
| Normalizer.NormalizedRecords | internal/catalog/catalog.go:665-691 | ids are distinct, each record is the first that is not featured (else the first), its credit keys are exactly the union |
| Normalizer.WhatIsKept | internal/catalog/catalog.go:665-691 | every album, EP and single with an id is kept, and nothing else |
| Normalizer.RoleIsRead | internal/catalog/catalog.go:665-691 | the featured role is read without regard to case and surrounding white space |
| Normalizer.PrimaryIsNotFeatured | internal/catalog/catalog.go:665-691 | records credited as primary or guest, or without a role, are not passed over |
| Normalizer.NormalizeIsIdempotent | internal/catalog/catalog.go:665-691 | normalising twice equals normalising once |
| Titles.NormalizedReleaseTitle | internal/store/release_helpers.go:371-417 | the rune loop computes the specified title |
| Titles.NormalizedIsIdempotent | internal/store/release_helpers.go:371-417 | normalising a normalised title changes nothing |
| Titles.SymbolTitlesMatchIff | internal/store/release_helpers.go:407-416 | titles without letters or numbers match exactly when their lower-case symbol words are equal |
| Titles.CaselessSymbolTitlesMatchIff | internal/store/release_helpers.go:407-416 | for symbols without case that means equal words |
| Titles.CasedSymbolsCoincide | internal/store/release_helpers.go:372 | distinct symbols with one lower case match although their words differ |
| Titles.CircledLettersCoincide | internal/store/release_helpers.go:372 | the capital and the small circled letter A are such a pair |
| Titles.EmptyIff | internal/store/release_helpers.go:374-397 | a title normalises to nothing exactly when it is blank, or its trimmed, lower-case, suffix-free text is one bracket group naming an edition from end to end, or one in square brackets before one in round ones |
| Titles.EditionVanishes | internal/store/release_helpers.go:383-397 | a title that is one edition in round or square brackets does, whatever stands around the marker and in any case |
| Titles.TwoEditionsVanish | internal/store/release_helpers.go:383-397 | so does one in square brackets before one in round brackets |
| TitleMatching.PlainTitlesMatchIff | internal/store/release_helpers.go:397-417 | titles without suffix and edition are taken for the same exactly when their words of letters and numbers agree |
| TitleMatching.CaseIsIgnored | internal/store/release_helpers.go:372-372 | case is ignored |
| TitleMatching.TypeSuffixIsIgnored | internal/store/release_helpers.go:377-382 | a trailing type suffix, of any of the six kinds, is ignored |
| TitleMatching.EditionIsIgnored | internal/store/release_helpers.go:383-397 | a trailing bracket group that names an edition is ignored, in both bracket kinds |
| LegacyIPv4.RoundTrip | internal/netpolicy/netpolicy.go:74-133 | every 32-bit value, in one to four parts and any mix of notations, is read back |
| LegacyIPv4.AcceptedIff | internal/netpolicy/netpolicy.go:74-133 | a host is accepted with a value exactly when it is written as one to four fitting numerals that add up to it in base 256 |
| LegacyIPv4.ReadParts | internal/netpolicy/netpolicy.go:83-107 | the loop over the parts reads each in the base its prefix announces |
| LegacyIPv4.Combine | internal/netpolicy/netpolicy.go:108-131 | the four forms are the positional value with the last part filling the rest |
| LegacyIPv4.ParseLegacyIPv4 | internal/netpolicy/netpolicy.go:74-133 | the four bytes of the result assemble to the value the host denotes |

## Left out

- The division of a delivery batch between the two queues and its four workers: claims and worker steps interleave freely anyway.
- Titles, bodies, error messages and audit rows of deliveries: text for people; whether an audit row exists is a flag.
- Row counts that transactions return: the whole new state is specified instead.
- Deletion cascades of accounts and destinations, enabling and disabling destinations, and the due trigger of Follow on the artist's own schedule.
- The query texts of digest contents (which releases a digest lists) and time zones: the run a period lookup returns is a parameter.
- Failed reads and cancellation in a synchronisation, and loading cooldowns from persisted provider health: cooldowns start with arbitrary values.
- Manual sync requests, import jobs, caches, artwork, sessions, HTTP and message transports: plumbing or the same shapes with less in them.
- CatalogScheduling.SyncLeavesNothingDue: sets timed-out lookups and failed identity writes aside; `StaysDueIff` says exactly what they do.
- NotificationStore.Store.Follow: does not pull the artist's own check forward, as the due trigger of the artists table does.
- NotificationStore.Store.QueueDigest: takes the run found for the period as a parameter, because period keys are opaque here.
- Invariants.RestoreHoldKeeps: covers the restoring write only; `NotificationStore.Store.RestoreHold` restores and drains, and every drain keeps the invariants by `Invariants.DrainHoldKeeps`.
- ProtocolSafety.LeasesNeverOverlap: speaks of one step; `RunSafety.ClaimsNeverOverlap` speaks of runs.
- ProtocolSafety.AcceptedSendSettles: speaks of one step and says nothing of a missing row; `RunSafety.AcceptedSendEndsIff` is exact over runs.
- RunSafety.AcceptedSendSettlesInRuns: says nothing of a missing row; `RunSafety.AcceptedSendEndsIff` says exactly when it is missing.
- ReachableFacts.AuditMatchesRow: states one retry ladder for row and audit; `RunSafety.HealthShowsRowSchedule` relates the two store calls.
- DeliveryRunner.Runner.PerformDelivery: plays its steps without interference; interleavings with other runners are the subject of the state machine.
- Titles.NormalizedReleaseTitle: works on characters; invalid UTF-8 is not modelled, and the laws of the character tables are hypotheses (`Lawful`), shown to be consistent by `AsciiIsLawful`.
- LegacyIPv4.Combine: adds shifted parts where the program joins disjoint bits.
- RequestLimiter.Limiter.Enter: the interval stays fixed and the service name stored with a cooldown is dropped.
- LogSink.NoSilentLoss: the instant of the last loss is dropped.
