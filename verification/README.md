# OmniDeck: verified models of the notification, provisioning and market machinery

OmniDeck's server is a single process over synchronous SQLite: code between two awaits runs alone, and several
state machines over tables interleave at the awaits. This project models those machines in Dafny and proves what
they keep over every run. Each machine comes in two forms: a specification (functions on whole tables, with runs
as sequences of actions), about which the theorems are proved, and a class with the tables as fields, whose
methods follow the code statement by statement and are proved to leave exactly what the specification says.
What the specification functions mean is told once more from the tables alone, without those functions: in
`OutboxEmission`, `OutboxDelivery`, `EmissionMeaning`, `ProvisioningEffects`, `ProvisionerOutcomes`, `MarketRules`
and `MarketPolls`.
`dafny verify dfyconfig.toml` checks everything.

| files | what they model |
|---|---|
| `QuietHours` | quiet-hour arithmetic |
| `Incidents`, `Outbox`, `OutboxSteps`, `OutboxRuns`, `OutboxIncidents`, `OutboxEmission`, `OutboxDelivery`, `OutboxLimits`, `OutboxModes` | the notification outbox: incidents, suppression, leases, retries, repeat chains |
| `FanOutLoop`, `NotificationService`, `NotificationApi` | the same as a class over the tables, loop by loop |
| `StableJson`, `SensitiveFields`, `Emission`, `EmissionMeaning` | stable printing, fingerprints, idempotent emission |
| `Provisioning`, `ProvisioningRuns`, `ProvisioningRace`, `ProvisioningEffects`, `ProvisioningPaths`, `ProvisioningTurns`, `ProvisioningService` | ntfy accounts, device tokens and leased jobs |
| `Nonces`, `Provisioner`, `ProvisionerRuns`, `ProvisionerOutcomes` | the Go provisioner: authentication and execution by request id |
| `MarketOffers`, `MarketSnapshot`, `MarketSubscription`, `Market`, `MarketRuns`, `MarketRules`, `MarketPolls`, `MarketService` | market polling, snapshot load and procurement rules, on top of the outbox |
| `Alerts`, `AlertRuns`, `AlertService` | the alert table on top of the outbox |
| `Outside`, `Wrappers` | fresh ids and clock readings; absent values and results |

Conventions. Times are integers (milliseconds; nanoseconds in `Nonces`), and one clock that never runs backwards
serves all tables. Random ids are parameters that are required to be fresh. Providers, the provisioner and the
market feed answer anything: in each class what they will say is some function of the request (`takes`, `answers`,
`fetches`). Requests differ from one another, so this leaves every sequence of answers possible - but for a
provisioning job that is claimed, resumed and claimed again within one millisecond, whose two requests would be
answered alike. A `requires` of a method states only what holds of its callers in the code: a fresh id, a clock
reading that is not in the past, a claim the worker holds. History fields
(`outages`, `issued`, `loaded`, a device's `generation`) record what the theorems speak about and are read by no
branch.

Three promises turned out not to hold of the code as it is, and are stated exactly:

- `docs/notifications.md` says that mode `all` preserves queued openings. The code does not look at the mode when
  it completes a delivery (`apps/server/src/notification-service.ts:558-566`): an opening that is sent after its
  recovery ends superseded. `OutboxModes.SentOpeningIsKeptIff` gives the exact condition, for all modes, and
  `OutboxModes.AllModeLosesSentOpening` a run.
- An enable request that waits for a clean-up job upserts the account without looking at it again
  (`apps/server/src/routes/notifications.ts:320-338`). Two of them can overlap, and the second can overwrite an
  account that is active by then. `ProvisioningRuns.TokensMatchIff` gives the exact condition and
  `ProvisioningRace.OverlappingEnables` a run.
- A snapshot load is meant to replace the active set, but a feed that gives a listed product a new external id makes
  it fail (`apps/server/src/db.ts:189` against
  `apps/server/src/market-service.ts:185-194`). `MarketSnapshot.CommitsIff` gives the exact condition and
  `MarketSnapshot.RenumberedProductFails` an input.

## Model

| member | source | states |
|---|---|---|
| `QuietHours.QuietIsOneArc` | apps/server/src/notification-logic.ts:60-69 | For start different from end, a minute is quiet exactly when its clockwise distance from the start is less than the length of the window: the quiet minutes are one arc of the 1440-minute circle, wrapped or not. |
| `QuietHours.LocalMinuteIff` | apps/server/src/notification-logic.ts:39-53 | The local clock shows a minute exactly during that minute of some local day of the zone. |
| `QuietHours.QuietTimeIff` | apps/server/src/notification-logic.ts:61-69 | An instant is quiet exactly when a window with two different ends is set and the instant lies, on some local day, between the minute it starts at and the minute it ends at - the next day if the end comes first on the clock. |
| `QuietHours.QuietUntilEnd` | apps/server/src/notification-logic.ts:61-69 | Walking on from a quiet minute stays quiet exactly as long as the walk is shorter than the distance to the end. |
| `QuietHours.QuietEndIsFirst` | apps/server/src/notification-logic.ts:71-77 | The instant returned is not quiet, every earlier whole-minute step is, and it is between 1 and 1440 minutes away. |
| `QuietHours.WaitFromQuietMinute` | apps/server/src/notification-logic.ts:71-77 | From a quiet minute the wait is exactly (end - current) mod 1440 minutes. |
| `QuietHours.NextQuietEnd` | apps/server/src/notification-logic.ts:71-77 | The search loop returns the closed form; its 24-hour fallback after 36 hours is unreachable. |
| `Incidents.AbsorbKeepsOrder` | apps/server/src/notification-service.ts:428-475 | One report keeps opened_at <= last_opened_at <= resolved_at, never moves the watermark back, and a report that may notify sets status and watermark to its own. |
| `Incidents.NotifiesIff` | apps/server/src/notification-service.ts:428-475 | A report may notify exactly if the incident is new, or it is an opening of a resolved one later than its closing, or an opening of an open one not older than the last, or a recovery of an open one not older than the last opening. |
| `Incidents.AcceptedReportWrites` | apps/server/src/notification-service.ts:433-473 | Every column after a report that may notify: a new or re-opened incident starts afresh, an opening of an open one moves only the last opening, a recovery sets the closing. |
| `Incidents.SilentReportWrites` | apps/server/src/notification-service.ts:433-473 | A report that may not notify changes nothing but the closing of a resolved incident, and only forward. |
| `OutboxIncidents.IncidentIsFold` | apps/server/src/notification-service.ts:367-381 | In every reachable state each incident is the fold, in the order of recording, of exactly the openings and recoveries stored for its project and dedupe key. |
| `OutboxIncidents.OpenIffLatestIsOpening` | apps/server/src/notification-service.ts:428-475 | In every reachable state an incident is open exactly if some stored opening of its key is later than every stored recovery of it. |
| `OutboxIncidents.ReportNotifiesIff` | apps/server/src/notification-service.ts:377-382 | Whether the next report of a run may notify, told from the stored events of its key alone. |
| `Incidents.ReplayShowsLatest` | apps/server/src/notification-service.ts:428-475 | After any sequence of reports the incident shows the latest instant seen, and at one instant a recovery wins. |
| `Incidents.Converges` | apps/server/src/notification-service.ts:428-475 | Two sequences with the same reports, in any order and with any repetitions, end in the same status and watermark. |
| `Incidents.OpenedAtDependsOnOrder` | apps/server/src/notification-service.ts:433-456 | opened_at is not part of what converges: two orders of the same two openings give different values. |
| `Outbox.NormalizeChannels` | apps/server/src/notification-logic.ts:83-87 | The known channels of the stored list, each exactly once. |
| `OutboxEmission.RowExistsIff` | apps/server/src/notification-service.ts:383-405 | An accepted event gets a row for a subscription and channel exactly when the subscription is enabled, matches project, type and priority, lists the channel, and its user is active, targeted and entitled; the row is that user's, unsent. |
| `OutboxEmission.ChannelNames` | apps/server/src/notification-logic.ts:83-87 | The three channels, by their names. |
| `OutboxEmission.UnkeyedIsPending` | apps/server/src/notification-service.ts:482-484 | Recoveries and events without dedupe key are never suppressed. |
| `OutboxEmission.ScopedOpeningPendingIff` | apps/server/src/notification-service.ts:477-506 | In the modes that follow the incident, the first row of an accepted opening is pending exactly when the mode is not recovery_only and no counting row of the same subscription, channel, project and dedupe key is of an event that occurred since opened_at. |
| `OutboxEmission.IntervalOpeningPendingIff` | apps/server/src/notification-service.ts:477-506 | Under an interval it is pending exactly when the mode is not recovery_only and no such row was delivered - or created, if undelivered - within cooldown_seconds. |
| `OutboxEmission.PlainEventPendingIff` | apps/server/src/notification-service.ts:477-506 | The same for a plain event with a dedupe key, which follows the open incident of its key if there is one and the interval otherwise. |
| `OutboxEmission.OtherKeysHaveNoSay` | apps/server/src/notification-service.ts:497-506 | Rows of another subscription, channel, project or dedupe key never influence the status of a new row. |
| `OutboxEmission.DeferredMeans` | apps/server/src/notification-service.ts:403-408 | Below priority 5 an instant in the quiet window moves to the first whole-minute step outside it; any other instant stays. |
| `OutboxEmission.FirstRowIsDue` | apps/server/src/notification-service.ts:397-407 | A first row is due now, or after the quiet window of its user if its priority is below 5. |
| `OutboxEmission.EmissionChangesOnly` | apps/server/src/notification-service.ts:408-410 | Beyond its own rows an accepted event changes only the queued openings of its key that a recovery replaces. |
| `OutboxEmission.SilentReportChangesNoRow` | apps/server/src/notification-service.ts:381-382 | An event whose report may not notify leaves every row alone. |
| `OutboxSteps.StepEvolves` | apps/server/src/notification-service.ts:309-718 | Every action moves each row along its life cycle, creates rows only as first of a chain or as repeat of a delivered one, only ever adds claims, and never takes an outage back. |
| `OutboxRuns.StepKeepsInv` | apps/server/src/notification-service.ts:309-718 | Every action keeps the invariants that tie incidents, openings, rows, leases and repeat chains together. |
| `OutboxRuns.RunKeepsKeysUnique` | apps/server/src/notification-service.ts:338-365 | No project ever has two events under one idempotency key. |
| `OutboxRuns.TimestampTestIsGenerationTest` | apps/server/src/notification-service.ts:558-561 | In every reachable state an accepted opening belongs to the current outage exactly when the incident is open and occurred_at >= opened_at. |
| `OutboxRuns.IncidentTimesOrdered` | apps/server/src/notification-service.ts:428-475 | In every reachable state opened_at <= last_opened_at <= resolved_at, and resolved_at is set exactly on resolved incidents. |
| `OutboxRuns.RecoveryCloses` | apps/server/src/notification-service.ts:457-473 | An accepted recovery of an open incident closes the outage that was going on. |
| `OutboxRuns.ClosedOutageStaysSilent` | apps/server/src/notification-service.ts:530-606 | Once an outage is over, no later interleaving of emissions, claims, lease expiries, failures and re-openings records one of its openings delivered or gives one a new row - whatever the recovery mode. |
| `OutboxRuns.ClosedPersists` | apps/server/src/notification-service.ts:428-475 | A closed outage is never opened again; a re-opening is a new one. |
| `OutboxRuns.ClaimsAreFenced` | apps/server/src/notification-service.ts:629-668 | Successive claims of one row carry strictly increasing lease values, over the whole run and even where a failure cleared the lease in between. |
| `OutboxRuns.OneWorkerHolds` | apps/server/src/notification-service.ts:568-585 | At most one worker holds a row: two claims of one row that both still match it are the same claim. |
| `OutboxRuns.StaleWorkerChangesNothing` | apps/server/src/notification-service.ts:568-585 | A worker whose claim has been followed by a newer one changes no row by finishing or failing. |
| `OutboxRuns.SettledRowsStay` | apps/server/src/notification-service.ts:530-587 | Delivered, failed, suppressed and superseded rows never change again. |
| `OutboxRuns.ChainIsContiguous` | apps/server/src/notification-service.ts:696-718 | Below every row of a repeat chain all indices exist and are delivered. |
| `OutboxRuns.AtMostOneLive` | apps/server/src/notification-service.ts:696-718 | One event, subscription and channel never has two live rows. |
| `OutboxLimits.DeliveriesPerOutage` | apps/server/src/notification-service.ts:477-506 | With fixed settings an outage yields at most one delivered row per subscription and channel in mode once, and at most repeat_count in mode repeat_count, however many openings arrive. |
| `OutboxLimits.DeliveriesAreSpaced` | apps/server/src/notification-service.ts:706-717 | A delivered repeat lies at least cooldown_seconds after the delivery before it, also where quiet hours push it further. |
| `OutboxLimits.SchedulesAvoidQuietTime` | apps/server/src/notification-service.ts:403-408 | A row new in some step of a run is never scheduled into quiet time below priority 5: neither a first row nor a repeat. |
| `OutboxLimits.DeferredIsLater` | apps/server/src/notification-service.ts:706-710 | Deferral never moves an instant back, and moves it out of quiet time. |
| `OutboxModes.RecoveryDropsQueuedIff` | apps/server/src/notification-service.ts:408-410 | An accepted recovery supersedes a queued opening exactly in mode merged and where it goes to the same subscription, channel and user; otherwise the opening stays as it is. |
| `OutboxModes.SweepDropsQueuedIff` | apps/server/src/notification-service.ts:589-606 | The sweep drops a queued opening exactly when its outage is over and the mode is not all. |
| `OutboxModes.RecoveryOnlySuppresses` | apps/server/src/notification-service.ts:402 | Under recovery_only an opening is born suppressed. |
| `OutboxModes.SentOpeningIsKeptIff` | apps/server/src/notification-service.ts:558-585 | A sent opening ends delivered exactly when it belongs to the outage that is still going on, under every mode; otherwise it ends superseded. |
| `OutboxModes.AllModeLosesSentOpening` | docs/notifications.md:12 | The documented promise of mode all fails: a concrete run in which a queued opening is sent after its recovery and ends superseded. |
| `OutboxDelivery.SweepsDropTheUnclaimable` | apps/server/src/notification-service.ts:589-648 | Of the rows that are due and idle the two sweeps drop exactly those that the claim query would never return. |
| `OutboxDelivery.ClaimsAreAuthorized` | docs/notifications.md:10 | Whatever was switched off or removed since the emission, a worker only takes a row whose owner may receive it at that moment. |
| `OutboxDelivery.AttemptsCountClaims` | apps/server/src/notification-service.ts:651-655 | The attempt counter of a row is the number of times it has been claimed, crashed workers included. |
| `OutboxDelivery.ResolvedSweepMeans` | apps/server/src/notification-service.ts:589-606 | The first sweep supersedes exactly the due idle openings whose outage is gone, outside mode all, and changes no other row. |
| `OutboxDelivery.UnauthorizedSweepMeans` | apps/server/src/notification-service.ts:608-627 | The second sweep supersedes exactly the due idle rows whose owner may no longer receive them, and changes no other row. |
| `OutboxDelivery.ClaimableIff` | apps/server/src/notification-service.ts:631-648 | A row can be claimed exactly when it is due, pending or with an expired lease, its project, type, subscription and user are switched on, its user entitled and, for ntfy, provisioned. |
| `OutboxDelivery.ClaimMeans` | apps/server/src/notification-service.ts:649-668 | A claim counts one attempt and leases the row for sixty seconds, and changes nothing else; first in line is a claimable row with the earliest next attempt, and among those the first created. |
| `OutboxDelivery.FinishSettles` | apps/server/src/notification-service.ts:558-585 | After success the row ends delivered with its repeat queued if one is due, superseded if its outage has gone, failed if the transaction could not be stored, and untouched if the lease was lost. |
| `OutboxDelivery.FailSettles` | apps/server/src/notification-service.ts:670-694 | After an error the row waits the documented 1, 5, 15, 60 or 360 minutes according to its attempts, then fails; it is superseded if its outage has gone, and untouched if the lease was lost. |
| `NotificationService.NotificationStore.UpdateIncident` | apps/server/src/notification-service.ts:428-475 | The branches and the upsert leave the incident table and the answer that the fold of reports prescribes. |
| `FanOutLoop.Emitting.OrderDoesNotMatter` | apps/server/src/notification-service.ts:383-418 | Whatever order the database returns the subscriptions in, the nested loops leave the same delivery table, with one row per matching subscription and channel. |
| `NotificationService.NotificationStore.CreateDeliveries` | apps/server/src/notification-service.ts:397-418 | The nested loops, row by row, reach the table of the specification and count the rows made. |
| `NotificationService.NotificationStore.Record` | apps/server/src/notification-service.ts:367-420 | The insertions of one emission are one action of the machine; the count returned is the number of matching pairs, or 0 for a report that may not notify. |
| `NotificationService.NotificationStore.SupersedeResolved` | apps/server/src/notification-service.ts:589-606 | The sweep is the specified one and an action of the machine. |
| `NotificationService.NotificationStore.SupersedeUnauthorized` | apps/server/src/notification-service.ts:608-627 | The sweep is the specified one and an action of the machine. |
| `NotificationService.NotificationStore.FirstCandidate` | apps/server/src/notification-service.ts:631-648 | The row chosen is claimable and no claimable row comes before it in (next_attempt_at, created_at); none is chosen only if none is claimable. |
| `NotificationService.NotificationStore.ClaimDelivery` | apps/server/src/notification-service.ts:629-668 | Claiming takes the first claimable row with a 60-second lease, or changes nothing because none is claimable. |
| `NotificationService.NotificationStore.InsertRepeat` | apps/server/src/notification-service.ts:696-718 | The repeat row, if one is due, with its deferred time and next index; an existing row is left alone. |
| `NotificationService.NotificationStore.FinishDelivery` | apps/server/src/notification-service.ts:558-585 | Completion, roll-back and supersession leave the state of the specification, and are one action. |
| `NotificationService.NotificationStore.FailDelivery` | apps/server/src/notification-service.ts:670-694 | Failure handling leaves the state of the specification, and is one action. |
| `NotificationService.NotificationStore.ProcessDeliveries` | apps/server/src/notification-service.ts:530-587 | Both sweeps, then one turn after the other without a gap, each settled by the answer of its own provider; it stops before the limit only when nothing is claimable, and takes only actions of the machine. |
| `NotificationService.NotificationStore.DeliverOne` | apps/server/src/notification-service.ts:535-587 | A turn takes the first claimable row and settles it by the provider's answer and the database's; done exactly when nothing is claimable. |
| `NotificationService.NotificationStore.Settle` | apps/server/src/notification-service.ts:541-587 | Completion if the provider took the message, failure handling if it threw: the row ends as these prescribe. |
| `StableJson.StableStringifyDecides` | apps/server/src/notification-service.ts:67-78 | Two proper values print alike if and only if they are the same up to the order of object keys at any depth. |
| `StableJson.SameNormalizes` | apps/server/src/notification-service.ts:68-76 | Key order disappears: values that are the same normalise to one value. |
| `StableJson.TextSeparates` | apps/server/src/notification-service.ts:77 | The printed form separates: equal texts, whatever follows them, come from equal values. |
| `SensitiveFields.FoundIsSecret` | apps/server/src/notification-logic.ts:1-19 | The path reported leads through the data to a key matching the pattern. |
| `SensitiveFields.NothingFoundNothingThere` | apps/server/src/notification-logic.ts:1-19 | When nothing is reported no path of the data ends at a key matching the pattern. |
| `SensitiveFields.SensitiveKeyIff` | apps/server/src/notification-logic.ts:1-3 | A key is sensitive exactly when it contains one of the listed words, in any case of its letters. |
| `EmissionMeaning.ObjectionIsFirst` | apps/server/src/notification-service.ts:309-336 | The checks object exactly to the first of the listed requirements that is not met. |
| `EmissionMeaning.CallSucceedsIff` | apps/server/src/notification-service.ts:309-365 | A call is refused as unknown exactly for a missing or switched-off type or project; otherwise, with an unused key, it succeeds exactly when every requirement is met, and is refused for the first one that is not. |
| `EmissionMeaning.NewEventIsTheCall` | apps/server/src/notification-service.ts:367-426 | A successful call stores one event that says what the call said, dated by the call or else by the clock, and is answered with the number of its rows. |
| `EmissionMeaning.OldEventRepeatIff` | apps/server/src/notification-service.ts:343-365 | A call whose key belongs to an event stored without fingerprint is a repeat exactly when that event says what the call says, and is refused otherwise. |
| `Emission.FingerprintDecides` | apps/server/src/notification-service.ts:338-341 | Two calls have one fingerprint exactly when they agree in every listed part, the data up to key order. |
| `Emission.CallIsStep` | apps/server/src/notification-service.ts:309-426 | A call either changes nothing - an error or a repeat - or is exactly one action of the outbox machine. |
| `Emission.AcceptedCallIsRecorded` | apps/server/src/notification-service.ts:367-376 | An accepted call leaves its event under its idempotency key with its fingerprint. |
| `Emission.RetriesAreIdempotent` | apps/server/src/notification-service.ts:343-365 | At any later point of a run a call with a used key changes nothing; it is answered as a repeat exactly when its content is that of the stored event, and refused otherwise. |
| `NotificationApi.EmitNotification` | apps/server/src/notification-service.ts:309-426 | The method leaves exactly the tables and gives exactly the answer of the specification: checks in order, roll-back on error, repeat, conflict or insertion. |
| `ProvisioningRuns.TokensMatchIff` | apps/server/src/notification-provisioning.ts:86-259 | Over every run of enable, disable, user removal, resume, lease loss and late answers: every unrevoked token belongs to an account active at the generation of the token, in every state, if and only if no enable request overwrote an account whose user still had an unrevoked token. |
| `ProvisioningRuns.StepKeepsTokens` | apps/server/src/notification-provisioning.ts:213-259 | One action keeps the match of tokens and accounts exactly unless it is such an overwrite. |
| `ProvisioningRuns.InactiveAccountsHaveNoTokens` | apps/server/src/routes/notifications.ts:300-338 | The enable branch that does not await never overwrites; the awaiting one does not either as long as the account is not active. |
| `ProvisioningRace.OverlappingEnables` | apps/server/src/routes/notifications.ts:320-338 | A concrete run of two overlapping enable requests that leaves an unrevoked token under an account pending at a later generation. |
| `ProvisioningRuns.DisabledStaysDisabled` | apps/server/src/notification-provisioning.ts:148-188 | A disabled account stays disabled through any run unless a later enable request intervenes, and then its generation is strictly greater. |
| `ProvisioningRuns.GenerationsGrow` | apps/server/src/routes/notifications.ts:331-337 | Generations never go back. |
| `ProvisioningRuns.LateAnswersChangeNothing` | apps/server/src/notification-provisioning.ts:148-225 | Once the generation has moved on, no answer to an older provision, add-device or disable-account job - success, failure or lost lease - touches any account or token. |
| `ProvisioningRuns.RunKeepsJobs` | apps/server/src/notification-provisioning.ts:116-131 | Jobs keep owner, operation and payload for ever and never run ahead of the account. |
| `ProvisioningRuns.DisabledAccountsAreCleanedUp` | apps/server/src/notification-provisioning.ts:196-201 | Clean-up jobs are never given up, and every disabled account has one for its ntfy user. |
| `ProvisioningEffects.AnswersInRun` | apps/server/src/notification-provisioning.ts:148-211 | In every run each answer of the provisioner has exactly the effect told from the tables: nothing without the lease, a refusal with its documented wait for an error, a token left to be cleaned up for an account that has moved on, completion otherwise. |
| `ProvisioningEffects.RevocationRevokes` | apps/server/src/notification-provisioning.ts:240-247 | When the answer to a held revoke-device call succeeds, its user has no unrevoked device with the token, every device that had it is in the table revoked, and no other device and no account changes. |
| `ProvisioningEffects.TokensAreKept` | apps/server/src/notification-provisioning.ts:213-239 | When the answer to a held provision or add-device call brings a token for a fitting account, the account ends active and its user has an unrevoked device with the hint of that token. |
| `ProvisioningEffects.RunKeepsHints` | apps/server/src/notification-provisioning.ts:226-238 | In every state of every run no two unrevoked devices of a user share a token hint, so a revocation matches one device at most. |
| `ProvisioningEffects.DisableMeans` | apps/server/src/routes/notifications.ts:402-428 | Disabling ntfy disables the account under the next generation, revokes all its tokens, fails its open token jobs and queues the removal of the ntfy user. |
| `ProvisioningEffects.DisableUserMeans` | apps/server/src/routes/users.ts:105-129 | Disabling the user does the same but leaves open jobs alone. |
| `ProvisioningEffects.DeleteUserMeans` | apps/server/src/routes/users.ts:165-180 | Deleting the user shuts any account down and queues the removal only for an enabled one. |
| `ProvisioningEffects.ResumeMeans` | apps/server/src/notification-provisioning.ts:86-112 | A resumed job starts over now, and with a provision its account is pending again. |
| `ProvisioningEffects.ClaimMeans` | apps/server/src/notification-provisioning.ts:133-144 | Only queued jobs and those with an expired lease can be claimed; a claim counts one attempt and leases the job for sixty seconds. |
| `ProvisioningEffects.StaleDoneMeans` | apps/server/src/notification-provisioning.ts:156-173 | A token for an account that has moved on is cleaned up at once or by an ownerless job of the right kind, and its own job fails. |
| `ProvisioningTurns.CompletedTokenTurn` | apps/server/src/notification-provisioning.ts:148-259 | A completed token job leaves its user an active account and an unrevoked device with the token's hint. |
| `ProvisioningTurns.CompletedRevocation` | apps/server/src/notification-provisioning.ts:240-247 | A completed revocation leaves the device it was made for revoked, and no unrevoked device of the user with that token. |
| `ProvisioningService.ProvisioningStore.DisableNtfy` | apps/server/src/routes/notifications.ts:402-428 | Not found exactly for a missing or disabled account; otherwise the whole transaction of the specification, as one action. |
| `ProvisioningService.ProvisioningStore.PatchDisabledUser` | apps/server/src/routes/users.ts:105-129 | Disabling a user disables an enabled account, revokes its tokens and queues its clean-up, and otherwise changes nothing. |
| `ProvisioningService.ProvisioningStore.RemoveUserAccount` | apps/server/src/routes/users.ts:165-180 | Deleting a user bumps the account and revokes its tokens whatever its status, and queues clean-up if it was enabled. |
| `ProvisioningService.ProvisioningStore.ResetJob` | apps/server/src/notification-provisioning.ts:86-112 | A job is reset exactly when it may be resumed; otherwise nothing changes. |
| `ProvisioningService.ProvisioningStore.ClaimRow` | apps/server/src/notification-provisioning.ts:133-144 | The claim succeeds exactly for a queued job or one with an expired lease. |
| `ProvisioningService.ProvisioningStore.FinalizeProvisioning` | apps/server/src/notification-provisioning.ts:213-259 | The effect of each operation on accounts and tokens, the device found for a revocation, and nothing at all when it throws. |
| `ProvisioningService.ProvisioningStore.FailRow` | apps/server/src/notification-provisioning.ts:192-209 | Retry, give up or mark the account in error, only for the holder of the lease. |
| `ProvisioningService.ProvisioningStore.Settle` | apps/server/src/notification-provisioning.ts:148-191 | The answer has the effect told from the tables; it counts as done exactly if the lease is held, the account fits and nothing is missing, and as superseded exactly if the account has moved on. |
| `ProvisioningService.ProvisioningStore.FinishStale` | apps/server/src/notification-provisioning.ts:160-173 | A superseded answer is cleaned up, by an ownerless job if the clean-up request failed. |
| `ProvisioningService.ProvisioningStore.ProcessJob` | apps/server/src/notification-provisioning.ts:133-211 | It takes a turn exactly if the job can be claimed: claim, request, answer handled, superseded token cleaned up, all by the provisioner's own answers; it returns a result exactly if that turn completed the job. |
| `ProvisioningService.ProvisioningStore.ResumeProvisionJob` | apps/server/src/notification-provisioning.ts:86-114 | A job that may not be resumed is refused without any change. |
| `ProvisioningService.ProvisioningStore.EnableNtfy` | apps/server/src/routes/notifications.ts:286-349 | An active account is left alone; in progress is answered exactly for an unread result or a job at work; created is answered only if the account is active and its user has an unrevoked device. |
| `ProvisioningService.ProvisioningStore.CreateCredentials` | apps/server/src/routes/notifications.ts:339-349 | Created is answered only if the account is active and its user has an unrevoked device. |
| `ProvisioningService.ProvisioningStore.UpsertAccount` | apps/server/src/routes/notifications.ts:327-338 | The upsert makes the account pending at the next generation, or generation 0 when there was none. |
| `ProvisioningService.ProvisioningStore.AddDeviceNtfy` | apps/server/src/routes/notifications.ts:351-382 | Not found exactly when the account is not active; created only if its user has an unrevoked device. |
| `ProvisioningService.ProvisioningStore.RevokeDeviceNtfy` | apps/server/src/routes/notifications.ts:384-400 | Not found exactly for a device that is missing, another user's or revoked; created only if that very device is revoked and no unrevoked device of the user has its token. |
| `ProvisioningService.ProvisioningStore.FirstDueJob` | apps/server/src/notification-provisioning.ts:266-271 | The due job with the least next_attempt_at; none only if none is due. |
| `ProvisioningService.ProvisioningStore.ProvisionWorkerTick` | apps/server/src/notification-provisioning.ts:261-275 | One turn after the other without a gap, each on a due job with the earliest next attempt; it stops before the limit only when nothing is due. |
| `ProvisioningService.ProvisioningStore.AcknowledgeProvisionResult` | apps/server/src/notification-provisioning.ts:286-291 | Acknowledging clears a stored result exactly when the user's completed job has one. |
| `Nonces.AcceptedIff` | provisioner/main.go:150-188 | A request is accepted exactly when its stamp is readable and within five minutes to either side of now, its nonce has sixteen characters or more, it is signed and genuine, and its nonce was not accepted within the last ten minutes. |
| `Nonces.VerdictMeans` | provisioner/main.go:150-188 | Every verdict has exactly its condition, in the order of the checks, and a request refused before the table is looked at leaves the table unchanged. |
| `Nonces.ReusesAreApart` | provisioner/main.go:176-186 | Two accepted requests with one nonce are more than ten minutes apart and carry different timestamps. |
| `Nonces.StoredWithinWindow` | provisioner/main.go:178-186 | After an acceptance every stored nonce expires between now and ten minutes from now. |
| `Nonces.NoReplayIff` | provisioner/main.go:165-186 | Keeping nonces for ten minutes is tight: some request is accepted twice if and only if they are kept for less. |
| `Nonces.Guard.Authenticate` | provisioner/main.go:150-188 | The checks in order, the removal of expired nonces and the insertion leave the specified table and verdict. |
| `Nonces.Guard.RemoveExpired` | provisioner/main.go:178-182 | The loop removes exactly the nonces that expired before now. |
| `Provisioner.LabelsDiffer` | provisioner/main.go:265-268 | Labels of different request ids differ, and none is the label of requests without id. |
| `Provisioner.Server.Handle` | provisioner/main.go:190-255 | For every script of command outcomes the operation leaves the store and gives the answer of the specification. |
| `Provisioner.Server.MakeUser` | provisioner/main.go:196-232 | Provisioning with retry lookup, replacement and deferred removal, command by command. |
| `Provisioner.Server.GiveAccess` | provisioner/main.go:218-232 | Access, token and the deferred removal that runs unless both succeeded. |
| `Provisioner.Server.MakeToken` | provisioner/main.go:265-288 | A token of this request is reused if listed, made otherwise. |
| `Provisioner.Server.FindToken` | provisioner/main.go:290-305 | The scan of the token list returns the first token with the label of the request. |
| `ProvisionerRuns.AtMostOneToken` | provisioner/main.go:265-305 | Over any sequence of finished, failed, stopped and repeated requests a user has at most one token labelled with a given request id. |
| `ProvisionerRuns.SuccessInRun` | provisioner/main.go:190-255 | A successful provision leaves user, read-only access and labelled token; add-device the token; revoke no such token; disable no such user. |
| `ProvisionerOutcomes.ExecuteMeans` | provisioner/main.go:190-255 | Every success and failure of every operation, whatever fails on the way: a provision ends with its former token, a brand-new user with one token, nothing changed, or the user gone; add-device adds one token at the end or none; revoke takes exactly the one token; disable exactly the user. |
| `ProvisionerOutcomes.ProvisionMeans` | provisioner/main.go:196-232 | A failed provision leaves a half-made user only if the provisioner has stopped, ntfy refused the removal, or the very command that added the user reported failure. |
| `ProvisionerOutcomes.SucceedsIff` | provisioner/main.go:190-255 | While every command works, a request succeeds, except that tokens cannot be listed, given or taken for a user who is not there. |
| `ProvisionerOutcomes.NothingToDo` | provisioner/main.go:235-252 | Revoking a token no line mentions, or removing a missing user, runs one command and changes nothing. |
| `ProvisionerRuns.RetriesAgree` | provisioner/main.go:201-210 | After a token has been returned every retry of the request returns that token or fails, and leaves the store as it was, until another operation removes user or token. |
| `ProvisionerRuns.RetryChangesNothing` | provisioner/main.go:201-210 | Where the token of a request exists, no pattern of failures or stops makes the retry change anything or return another token. |
| `ProvisionerRuns.ExecuteKeeps` | provisioner/main.go:190-255 | Every operation keeps labels unique, keeps the access behind every provision token, and touches no other user. |
| `MarketOffers.TargetIsCheapest` | apps/server/src/market-service.ts:66-77 | There is a target offer exactly when some offer is in stock, not expired, of the currency and within the price; it is then the cheapest of those, and the first of the cheapest. |
| `MarketOffers.SortIsAscending` | apps/server/src/market-service.ts:76 | The sort is ascending. |
| `MarketOffers.MedianIsMiddle` | apps/server/src/market-adapters.ts:133-138 | For every sorted arrangement of the values the median is the middle one or the half-up mean of the middle two, and lies between them. |
| `MarketOffers.MergeOffers` | apps/server/src/market-adapters.ts:179-184 | Every id once: the last top offer with an id wins, the lowest offer only joins under a new id; refused exactly when an offer that is looked at has another currency. |
| `MarketOffers.NormalizedIffYuan` | apps/server/src/market-adapters.ts:147-154 | An offer is normalised exactly if its currency is CNY in any case of its letters. |
| `MarketSnapshot.LoadReplaces` | apps/server/src/market-service.ts:162-245 | After a committed load the listing under every external id, every offer and the columns of every product are what the last entry of the snapshot says; everything it does not say is kept as it was, inactive. |
| `MarketSnapshot.KeysAgreeIff` | apps/server/src/market-service.ts:171-172 | Two slugs name one product exactly when they differ in nothing but the case of ASCII letters. |
| `MarketSnapshot.CommitsIff` | apps/server/src/market-service.ts:185-194 | A load commits exactly when no product finds its key listed under another external id, from before or from the same snapshot. |
| `MarketSnapshot.PairedCommits` | apps/server/src/market-service.ts:185-194 | As long as external ids and slugs stay paired every load commits. |
| `MarketSnapshot.RenumberedProductFails` | apps/server/src/db.ts:189 | A product that gets a new external id makes the load fail: UNIQUE (source_id, product_id) is not covered by the conflict clause. |
| `MarketSubscription.EnsureCovers` | apps/server/src/notification-service.ts:253-291 | Afterwards the user is a member and has an enabled matching subscription, and no other subscription has changed. |
| `MarketSubscription.BuiltInSettings` | apps/server/src/notification-service.ts:275-285 | The built-in subscription delivers every priority in the app, once per outage; an earlier one is switched on and turned to the event, and keeps its other settings. |
| `MarketSubscription.TargetIsDelivered` | apps/server/src/notification-service.ts:383-418 | After that, a fresh target event for an active user creates at least one delivery; all are pending, all are the user's, and no other delivery changes. |
| `MarketRuns.ActiveSetIsLastLoad` | apps/server/src/market-service.ts:162-245 | In every state of every run the active products and offers are exactly those of the last committed snapshot. |
| `MarketRuns.OneHolder` | apps/server/src/market-service.ts:114-160 | At most one worker ever holds the source. |
| `MarketRuns.StaleWorkerChangesNothing` | apps/server/src/market-service.ts:156-160 | A worker whose lease token was replaced or given up changes no product, offer, source row, rule, subscription or notification for the rest of the run. |
| `MarketRules.EvaluationMeans` | apps/server/src/market-service.ts:263-319 | In every run an evaluation that may go on makes its rule wait anew if nothing was found; if the call was answered, it makes it met exactly when the owner has a pending, processing or delivered row of the event stored for this rule, snapshot and attempt, and otherwise counts one attempt; it leaves it alone if met or unanswered. Without the lease nothing changes. |
| `MarketRules.NewEventsReach` | apps/server/src/market-service.ts:286-317 | Storing a new event always reaches the owner, so the rule is met at once. |
| `MarketRules.MetMeansServed` | apps/server/src/market-service.ts:277-317 | A rule becomes met only by an evaluation that found the cheapest wanted active offer and after which its owner has a live or completed delivery of the event of this rule, snapshot and attempt. |
| `MarketRules.CallAnsweredIff` | apps/server/src/market-service.ts:285-307 | For an unused key the call is answered exactly when the built-in project and type are there and switched on, the owner is known, and the message meets every requirement. |
| `MarketRules.MetUntilReset` | apps/server/src/market-service.ts:277-283 | A met rule stays met until an evaluation that may go on finds nothing or its target is edited. |
| `MarketRules.FreshEventsAreSeparated` | apps/server/src/market-service.ts:277-317 | Between two fresh events of one rule there is an evaluation that finds no wanted offer or an edit of the target. |
| `MarketRules.AttemptsAreUndelivered` | apps/server/src/market-service.ts:308-315 | The attempt counter goes up by one, and only when the event stored for the attempt has only failed, superseded or suppressed rows of the owner. |
| `MarketRules.WatchKeysDiffer` | apps/server/src/market-service.ts:291 | Every rule, snapshot and attempt has an idempotency key of its own. |
| `MarketRules.TargetSays` | apps/server/src/market-service.ts:286-307 | The call is for the owner at priority 4 and names product, price to two decimals, currency, shop, title, address, stock and snapshot, cut to the allowed lengths. |
| `MarketPolls.PollsAreApart` | apps/server/src/market-service.ts:114-124 | Two polls start more than ninety seconds apart unless the holder lets go of the source in between. |
| `MarketPolls.RegularPollsAreSpaced` | apps/server/src/market-service.ts:126-154 | After a release the worker waits a whole interval; only a forced poll does not. |
| `MarketPolls.ClaimMeans` | apps/server/src/market-service.ts:114-124 | A claim needs an enabled source that nobody holds any longer and whose time has come, unless forced; it takes the source for ninety seconds. |
| `MarketPolls.ReleaseMeans` | apps/server/src/market-service.ts:126-154 | The holder's release writes its outcome, keeps the columns it leaves out, and schedules the next poll one interval later; anybody else's changes nothing. |
| `MarketPolls.PatchMeans` | apps/server/src/routes/market.ts:296-306 | An edit changes what it names; a new target, and nothing else, makes the rule wait anew with no attempts. |
| `MarketService.MarketMonitor.ClaimSource` | apps/server/src/market-service.ts:114-124 | The source is claimed exactly when it is enabled, not leased and due or forced. |
| `MarketService.MarketMonitor.ReleaseSource` | apps/server/src/market-service.ts:126-154 | The release takes effect exactly for the holder of the lease token. |
| `MarketService.MarketMonitor.InsertProducts` | apps/server/src/market-service.ts:170-238 | The nested loops of the load fail exactly where the specification does and otherwise leave its tables. |
| `MarketService.MarketMonitor.UpsertSnapshot` | apps/server/src/market-service.ts:162-245 | The transaction commits exactly with the lease and without a clash, and is rolled back to the tables before otherwise. |
| `MarketService.MarketMonitor.FindTarget` | apps/server/src/market-service.ts:265-276 | The offer selected is the cheapest wanted active one of the product; none only if none is wanted. |
| `MarketService.MarketMonitor.EnsureMarketSubscription` | apps/server/src/notification-service.ts:253-291 | The directory of the specification, or no change when it throws. |
| `MarketService.MarketMonitor.EvaluateWatch` | apps/server/src/market-service.ts:263-319 | One turn of the loop is one action: lease check, reset, skip, announcement or retry. |
| `MarketService.MarketMonitor.EvaluateWatches` | apps/server/src/market-service.ts:247-320 | Every chosen rule has exactly one turn; nothing happens for a stale snapshot, and it throws exactly if the lease is gone. |
| `MarketService.MarketMonitor.PollClaimedSource` | apps/server/src/market-service.ts:330-374 | Without the lease nothing changes; a failed fetch or a load that does not commit only notes the error; an unchanged or loaded snapshot is evaluated for every rule and noted, with the next poll one interval later. |
| `MarketService.MarketMonitor.RunMarketPoll` | apps/server/src/market-service.ts:376-382 | A poll under way is joined, not repeated; otherwise the source is claimed, if it can be, and polled. |
| `MarketService.MarketMonitor.PostWatch` | apps/server/src/routes/market.ts:228-265 | A refused rule changes nothing; an accepted one is added, its owner subscribed, and it is evaluated against the current snapshot of a healthy source. |
| `MarketService.MarketMonitor.PatchWatchRule` | apps/server/src/routes/market.ts:267-313 | A refused edit changes nothing; an accepted one of an enabled rule is followed by its evaluation against the current snapshot. |
| `MarketService.MarketMonitor.EvaluateCurrent` | apps/server/src/market-service.ts:322-326 | Every chosen rule is evaluated once if the source is healthy and has a snapshot, and nothing happens otherwise. |
| `MarketService.MarketMonitor.CreateRule` | apps/server/src/routes/market.ts:228-264 | Missing product, limit and existing rule are refused without change; otherwise a waiting rule is added. |
| `MarketService.MarketMonitor.PatchRule` | apps/server/src/routes/market.ts:267-312 | Unknown and foreign rules are refused; a changed target resets state and attempts, anything else keeps them. |
| `MarketService.MarketMonitor.DeleteRule` | apps/server/src/routes/market.ts:315-324 | Only the owner or an administrator removes a rule, and only that one. |
| `AlertRuns.OneOpenAlert` | apps/server/src/alerts.ts:25-38 | In every reachable state a source has at most one open alert. |
| `AlertRuns.AtMostOneOfEach` | apps/server/src/alerts.ts:43-80 | The events recorded about an alert are at most one opening, at its opening time, with its title, message and priority by severity, and at most one recovery, at its recovery time - even if marks are lost to crashes and calls repeated. |
| `AlertRuns.AlertAgreesWithIncident` | apps/server/src/alerts.ts:17-82 | The alert's incident is open exactly while the opening is recorded and the recovery is not, and resolved exactly once the recovery is recorded, also when both times are equal. |
| `AlertRuns.NoOpeningAfterRecovery` | apps/server/src/alerts.ts:40-55 | Once a recovery has been recorded the opening is recorded only if it was before. |
| `AlertRuns.StepKeepsGood` | apps/server/src/alerts.ts:17-82 | Every statement of updateAlertState and every foreign outbox action keeps alerts and incidents in agreement. |
| `AlertService.AlertMonitor.UpdateAlertState` | apps/server/src/alerts.ts:17-82 | A failing source has its open alert, or a new one, and the opening is announced unless it was; a source that is not failing has its open alert cleared and the latest unannounced recovery announced. An alert is marked exactly if its call was answered and the mark could be saved; alerts of other sources are untouched. |
| `Alerts.ProjectsByName` | apps/server/src/notification-service.ts:720-725 | The project of an alert, by the name of its source kind. |
| `AlertService.AlertMonitor.FindFiring` | apps/server/src/alerts.ts:25-29 | The latest open alert of the source; none only if there is none. |
| `AlertService.AlertMonitor.FindUnannounced` | apps/server/src/alerts.ts:62-65 | The latest cleared alert of the source whose recovery has not been announced; none only if there is none. |

## Left out

- Deleting old data (cleanupExpiredData) and deleting users, projects or subscriptions together with their rows: the run theorems are about runs without it, since it forgets incidents and their watermarks.
- Row ids, updated_at, last_error and read_at: a delivery row is identified by its unique (event, subscription, channel, repeat index).
- Daylight saving: a time zone is a fixed offset in minutes. Clock strings are minutes after midnight.
- Hashing is taken to be injective and encryption the identity; a request signature is a flag that says whether it is genuine.
- Schema validation and template rendering are parameters of a call: the validator's answer, the rendered and trimmed texts.
- StableJson.StableStringifyDecides: prints keys in string order; JavaScript prints integer-like keys first, which is another fixed order of the same keys.
- Case-insensitive lookup of project and event keys: a request names its event type directly.
- Retries after a failed delivery ignore quiet hours, so OutboxLimits.SchedulesAvoidQuietTime speaks of first rows and repeats only.
- OutboxLimits.DeliveriesPerOutage: counts with settings that do not change during the run; a changed cooldown mode starts a new count.
- Attempt counters grow with every claim; a crashed worker's claim counts as well, and nothing bounds the number of claims of a row.
- Provider transports, the HTTP layer, sessions, rate limits and the audit log.
- Job creation times in provisioning: which job of the account is the latest is a parameter of the enable and add-device handlers.
- ntfy usernames and topics are random; a new username is only required not to be in use. Topics and passwords are not part of the account model.
- A crash of the server between two awaits of provisioning is covered where a worker never answers; a crash inside one synchronous stretch is covered only between the queueing steps.
- The provisioner's expiresAt, which is recomputed on every retry, and the parsing of ntfy's text output; ntfy itself is modelled by the three refusals its commands document (add an existing user, touch a missing one).
- Request ids are not shared between provisioner requests: ProvisionerRuns states its results for logs in which every id belongs to one request.
- Provisioner authentication reads its clock before it takes the lock: clock order and lock order are taken to agree.
- Prices are integers in minor units; converting the feed's decimals (toMinorUnits) is not modelled.
- MarketRules.FreshEventsAreSeparated: takes the evaluation of one rule as one step; a crash between the stored event and the update of the rule would allow a second event for a later snapshot.
- Market poll runs, observations, the product history views and the fetch itself.
- Product ids: a product is identified by its canonical key, which is unique and never reassigned.
- Registration of projects, event types, tokens and members, SMTP recipient syncing, dashboards, probes, metrics, the web console and the SDK.
