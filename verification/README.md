# Admitto: verified models

Models, in Dafny 4.11, of the parts of Admitto (event admission with tickets, wallet passes and a staff login) whose
correctness depends on the order in which things happen, and proofs of what they guarantee. Every claim is for all
inputs, all runs or all reachable states. `dafny verify dfyconfig.toml` checks the whole project.

**Wallet passes** (`Wallet*.dfy`). A tap on "Add to Wallet" makes a pass at an external provider on demand. The model is a
transition system. Each tap has a program counter; a step is what the code runs without waiting. The state holds the
event's settings, attendees, pass rows, passes and calls at the provider, the in-process lock map of every app instance,
erasures and settings saves in progress, and a clock. Between two steps of a tap anything else may happen: other taps on
this or another instance, an erasure or a removal, a settings save, staff actions, a database failure before or after a
commit, a crash, a late or lost answer. `markActive` is four separate steps (row lock, event lock, check, write); the
locks of a transaction are read off the program counter, so that they, and not the granularity of the model, are what the
guarantees rest on. `WalletModel` has the steps, `WalletInvariant` what every step keeps, `WalletSteps` what a step can
do, `WalletGuarantees` reservation, erasure and late sends, `WalletAgreement` the template, `WalletExpiry` the expiry
date, `WalletWinner` concurrency of creations, `WalletLeftBehind` passes under replaced credentials, `WalletRuns`
undisturbed stretches of a run as one big step, `WalletAnswers` what a tap that nobody disturbs is answered and leaves,
`WalletFaults` what it does when something goes wrong, `WalletDeeds` what everyone else does, `WalletWitnesses` runs that
show which guarantees need their conditions.

**Sessions and MFA** (`Session*.dfy`, `MfaTransactions.dfy`). `SessionModel` says what each read and write does,
`SessionRules` tells from the rows, the grants and the settings alone what they answer and write, and `SessionStore` has
the functions as methods that change tables row by row, proved against it. `SessionRuns` is the machine
over whole histories, in which the reads of a promotion and its one conditional update are separate steps;
`SessionTokens`, `SessionLife` and `SessionProofs` are the guarantees, `SessionWitnesses` the runs that break them when a
condition is dropped, `PurgeRuns` what a purge of expired sessions does to all that follows. `MfaTransactions` has the
completion of MFA with a recovery code, alone and interleaved.

**Smaller cores.** `StreamSlots` (ceilings on open check-in streams), `Authorization` (list queries against pointwise
checks), `Retention` (batched purge), `LineReader` (prompts on piped input), `Base64Url` (codec of the passkey page),
`Stylesheets` (the build step that defers stylesheets). `Roles` and `Options` are shared.

## What the proofs found

- A settings save compares the new template with the event as it was before the save's transaction
  (`event-settings-routes.ts:1282`, `1321`), so it may write without lock and count. A pass issued in between under another
  template then belongs to one the event does not record, and so does one saved by a tap that stood between its check and
  its write. `WalletAgreement.CommitIsSafeExactly` says exactly when a save keeps the agreement of rows and of writes under
  way, `WalletAgreement.FirstUnsafeSaveBreaks` that the first save of a run that does not breaks the agreement at once or
  lets a tap's next step break it. `WalletWitnesses.StaleSaveBreaksAgreement` and `WalletWitnesses.MidSaveBreaksAgreement`
  are runs of both kinds.
- A reschedule takes no lock at all: one that lands between the check and the write of `markActive` leaves the row with
  the old end (`WalletExpiry.CommitKeepsEnds`, `WalletWitnesses.RescheduleBreaksExpiry`). A reconciling update that was
  given up on while on its way can take effect last (`WalletWitnesses.AbandonedUpdateBreaksExpiry`): exactly when an update
  leaves every tap with the date it relies on is `WalletExpiry.LandKeepsExactly`, exactly when a saved row agrees with the
  provider is `WalletExpiry.WhenSavedExpiryAgrees`.
- `left_behind_pass_id` is one column: it is never cleared, but the second pass left behind takes the place of the first
  (`WalletLeftBehind.TheRowNamesTheLast`, `WalletWitnesses.SecondLeftBehindHidesTheFirst`).
- `erased_at` is when the erasure's transaction began, so a call can leave later than `erased_at` plus the send deadline;
  the bound counts from the commit (`WalletWitnesses.ErasedAtIsNotTheBound`). The settle window leaves room for both.
- A failed row that was issued is unreachable by issuance alone, and on one instance; with two instances and a void it is
  reachable (`WalletWitnesses.VoidLetsTheLoserFail`), although the comment on `markFailed` says no write path produces it.
- A promotion compares the expiry with the time it read first, so an expired partial session can come back
  (`SessionLife.WhenTheDeadReturn`, `SessionWitnesses.LatePromotionRevives`); exactly which sessions are refused for good is
  `SessionLife.DeadStaysDead`. Two racing promotions to the same partial stage can both return a token when a third stage
  lies between them (`SessionWitnesses.ThirdStageLetsBothWin`); exactly which step lets the second one win is
  `SessionRuns.WhenTheLoserWins`, and for `full` there is none.
- For the same reason a purge can be noticed: it deletes an expired session that a promotion in flight would have brought
  back. `PurgeRuns.PurgeIsInvisible` says exactly when no later run tells the difference,
  `SessionWitnesses.LatePurgeIsNoticed` is a state in which one does.
- The MFA re-check compares with `<`: a role granted in the millisecond the session was made slips through
  (`SessionProofs.NoAccessWithoutProof`, `SessionWitnesses.SameMillisecondSlipsThrough`).
- Node's readline may emit lines after its close event. The line reader loses none of them (`LineReader.NoLineIsLost`), but
  one that comes for a prompt that was rejected goes to the next prompt: the k-th prompt gets what is due to it exactly when
  that does not happen (`LineReader.FirstInFirstOut`, `LineReader.LineAfterCloseShifts`).

## Model

| member | source | states |
|---|---|---|
| `WalletInvariant.RunInv` | apps/web/src/app.ts:947-1618 | after every run, with any number of instances and any failure: reservations, calls, links, devices, row locks, erasures and the in-process lock map are in order together |
| `WalletInvariant.StepInv` | apps/web/src/app.ts:947-1618 | no single step of a tap, the provider, an erasure, a settings save or staff breaks that order |
| `WalletInvariant.SavedUnderLocks` | apps/web/src/app.ts:1020-1122 | in every run, when a save is written the tap holds the attendee's row and the event's lock, no erasure holds the row, the attendee is there, the pass was made for them under the template the request read, and the row comes to name it as active with the end that was checked |
| `WalletInvariant.SendCallOk` | apps/web/src/app.ts:1418-1448 | every creation and every reconciling update that leaves has a reservation behind it and leaves before the deadline counted from the locked check |
| `WalletInvariant.EraseCommitInv` | packages/tickets/src/attendee-lock.ts:8-25 | an erasure's commit finds nobody holding the row it has locked, and leaves no link and no device |
| `WalletInvariant.CrashInv` | apps/web/src/app.ts:1538-1542 | the death of an instance frees its locks and leaves the order of everything else intact |
| `WalletSteps.StepFrame` | apps/web/src/app.ts:947-1618 | passes are never forgotten and keep id and template, who is gone stays gone, time does not run back |
| `WalletGuarantees.ReserveBeforeCreate` | apps/web/src/app.ts:1165-1207 | in every run each pass at the provider and each creation under way of an attendee with a row is under the id that row holds, then and in every later state |
| `WalletGuarantees.NoRedirectOnceGone` | apps/web/src/app.ts:1578-1604 | no step, the retried final check included, redirects a tap to a pass of an attendee who is gone |
| `WalletGuarantees.ErasureIsFinal` | apps/web/src/app.ts:1609-1617 | once an attendee is gone no run puts a link or a device back, and whoever is redirected had passed the last check before |
| `WalletGuarantees.ConfirmedDeviceIsFrozen` | apps/web/src/app.ts:1552-1567 | once the first confirmation is recorded no tap of any later run changes the device on the row |
| `WalletGuarantees.SendsEndWithTheDeadline` | packages/wallet/src/provider.ts:10-20 | every call for an erased attendee left before the erasure's commit plus the deadline, hence before erased_at plus the erasure's own time limit plus the deadline |
| `WalletGuarantees.SettledIsFinal` | packages/tickets/src/erase-wallet-passes.ts:8-18 | once an erasure is older than the settle window the provider gets no further pass of the attendee, and a deleted one stays deleted, in every continuation |
| `WalletAgreement.SavedPassesAgree` | apps/web/src/app.ts:1002-1053 | in every run whose saves are safe when they write, the pass of every active or issued row of an attendee who is there was made under the template the event records |
| `WalletAgreement.CommitIsSafeExactly` | apps/web/src/admin/event-settings-routes.ts:1321-1335 | the write of a settings save keeps the agreement of the issued rows and of the writes under way if and only if it leaves the template alone, or nobody who is there has a pass issued and no tap is between check and write |
| `WalletAgreement.FirstUnsafeSaveBreaks` | apps/web/src/admin/event-settings-routes.ts:1282-1335 | in every run whose earlier saves were safe, a save is unsafe if and only if it breaks the agreement at once or leaves a tap whose next step breaks it |
| `WalletAgreement.CurrentCompareIsSafe` | apps/web/src/admin/event-settings-routes.ts:1166-1178 | a save that locked and counted, or compared with the template the event still has, is safe |
| `WalletAgreement.SettingsExcluded` | apps/web/src/admin/event-settings-routes.ts:1166-1178 | a save that has locked shuts out every tap between check and write, one that has counted finds nothing issued until it writes |
| `WalletAgreement.TapExcluded` | packages/wallet/src/template-lock.ts:13-19 | no step of a tap enters or issues between the lock of a save and its write |
| `WalletExpiry.SavedExpiryAgrees` | apps/web/src/app.ts:1054-1122 | on any number of instances, when every update that took effect carried the date of the taps relying on its pass: the pass of a saved row carries the date of the row's own expiry, on the fresh and on the recovery path, and that is the event's end or none unless a save moved it between check and write |
| `WalletExpiry.WhenSavedExpiryAgrees` | apps/web/src/app.ts:1054-1122 | in every run, without condition: the saved row agrees with the provider if and only if the pass carries at that moment the date of the event as the request read it |
| `WalletExpiry.OneInstanceExpiryAgrees` | apps/web/src/app.ts:1427-1449 | on one instance it agrees in every run that gives up on no update while it is on its way |
| `WalletExpiry.LandKeepsExactly` | apps/web/src/app.ts:1427-1449 | a call that takes effect leaves every tap with the date it relies on if and only if it carries the date of every tap relying on its pass; a creation always does |
| `WalletExpiry.CommitKeepsEnds` | apps/web/src/admin/event-settings-routes.ts:1331-1335 | a settings save leaves every write under way in agreement with the event if and only if nobody is between check and write or the end stays |
| `WalletWinner.OneWinner` | apps/web/src/app.ts:929-940 | on one instance: creations of an attendee never talk to the provider together, at most one of the attendee's calls is awaited and any other was given up on, a creation starts only for a row that never held a pass, and no tap turns a voided, expired or removed row active |
| `WalletWinner.FailedWasNeverIssued` | apps/web/src/app.ts:1340-1350 | on one instance a failed row was never issued, whatever staff do |
| `WalletWinner.ActiveSurvivesTaps` | apps/web/src/app.ts:1351-1369 | on any number of instances no step of a tap takes an active row to failed or removes it |
| `WalletWinner.FailedIssuedUnreachable` | apps/web/src/app.ts:1340-1350 | without staff actions issued means active in every reachable state |
| `WalletWinner.WhenFailureIsRecorded` | apps/web/src/app.ts:1359-1370 | recording a failure leaves a failed row that was issued if and only if the row was issued and is not active any more |
| `WalletWinner.OneCreation` | apps/web/src/app.ts:1487-1541 | the in-process lock lets one creation of an attendee run at a time |
| `WalletLeftBehind.NoPassLeftUnnamed` | apps/web/src/app.ts:1224-1330 | in every run, a pass judged to be under replaced credentials, by a save or after the failed delete for a gone attendee, is deleted, or a step of the run wrote this very pass to its attendee's row as left behind, or the log has it, or the attendee was removed, or the tap that judged it is at it or died |
| `WalletLeftBehind.TheRowNamesTheLast` | apps/web/src/app.ts:1311-1330 | in every run, the row of an attendee who was not removed names a pass if and only if some step left that pass behind there and no later step left another one |
| `WalletLeftBehind.OnlyAnotherHidesIt` | apps/web/src/app.ts:1311-1320 | in every run, once a pass was left behind the row names it or one left behind after it |
| `WalletLeftBehind.NameStaysUntilTheNext` | apps/web/src/app.ts:1311-1320 | the row names after a step the pass the step leaves behind, the first or the next, and otherwise the one it named before; it is never cleared |
| `WalletRuns.UndisturbedTapIssues` | apps/web/src/app.ts:1476-1544 | a tap nobody disturbs ends with one new pass, saved active under the event's template and end, the lock free and the outcome leading to it |
| `WalletAnswers.NewPassIsHandedOut` | apps/web/src/app.ts:1476-1617 | the first tap of an attendee, when nothing is in its way, is redirected to the one new pass: exactly one call was sent, with the event's template and date, the row is active with that pass and the event's end, and nothing else changed |
| `WalletAnswers.StoredPassIsHandedOut` | apps/web/src/app.ts:1480-1482 | every later tap is redirected to the pass the active row holds, sends nothing, takes no creation lock and changes at most the device of an unconfirmed row |
| `WalletAnswers.SavedMeanwhileIsHandedOut` | apps/web/src/app.ts:1491-1513 | a tap that becomes the creation after another one saved hands out that pass and makes none |
| `WalletAnswers.WaiterFollowsItsLeader` | apps/web/src/app.ts:1484-1489 | a tap that found a creation under way gets what that one settled on, and ends at the same pass |
| `WalletAnswers.LeftAtTheEnd` | apps/web/src/app.ts:1578-1617 | an attendee erased or removed meanwhile gets the ticket page, whatever pass the tap has |
| `WalletAnswers.LeftBeforeTheReservation` | apps/web/src/app.ts:1514-1521 | an attendee who left before the reservation gets the ticket page, and nothing is written or sent |
| `WalletAnswers.PassInHandIsHandedOut` | apps/web/src/app.ts:1020-1122 | a pass in hand, made or recovered, is saved with the event's end and handed out when the event is as the tap read it |
| `WalletAnswers.FailureIsNoted` | apps/web/src/app.ts:1351-1378 | a failed creation is noted on the row, except on an active one, and the tap is told to try again |
| `WalletAnswers.WhatFails` | apps/web/src/app.ts:1418-1471 | a rejection, a missing answer, a search without a result and a date that has moved since the tap read it lead to that failure |
| `WalletAnswers.OutdatedPassIsDeleted` | apps/web/src/app.ts:1273-1294 | a pass whose template the event has left is deleted, the row is not written, and the tap is told to try again |
| `WalletAnswers.OrphanIsNoted` | apps/web/src/app.ts:1224-1251 | a pass made for an attendee who left is never saved: its ids go on a row that has none, without links |
| `WalletAnswers.OrphanIsDeleted` | apps/web/src/app.ts:1252-1262 | it is deleted at the provider, and the tap is shown the ticket page |
| `WalletFaults.FailuresSettleWithoutAPass` | apps/web/src/app.ts:1179-1222 | whatever read or transaction fails before anything is written, the creation settles without a pass and frees its lock |
| `WalletFaults.UnheardSave` | apps/web/src/app.ts:1123-1160 | a save that fails leads to the question whether the attendee left: who is there is told to try again, the pass of who left is an orphan |
| `WalletFaults.AfterTheRepeatedCheck` | apps/web/src/app.ts:1590-1604 | after a failed last transaction the attendee is read once more: redirected, shown the ticket page, or told to try again when that fails too |
| `WalletFaults.DuplicateIsUpdated` | apps/web/src/app.ts:1394-1446 | on a duplicate the earlier pass of the same template is found and updated with this request's data under the same check and deadline |
| `WalletFaults.ClosedMeanwhile` | apps/web/src/app.ts:1507-1510 | a creation that finds the event over, or the pass voided, expired or removed, settles as unavailable |
| `WalletFaults.NothingIsSentLate` | packages/wallet/src/provider.ts:10-20 | two minutes after the locked check no creation and no update leaves |
| `WalletFaults.OrphanIsRemembered` | apps/web/src/app.ts:1311-1330 | a pass that could not be deleted is named on the row, or in the log when that write fails |
| `WalletDeeds.ErasureErases` | packages/tickets/src/attendee-lock.ts:8-25 | an erasure that is not kept waiting leaves the attendee gone as of when it began, their row without link and device, and nothing else changed |
| `WalletDeeds.WhenAnErasureLocks` | packages/tickets/src/attendee-lock.ts:8-25 | it locks exactly the row of an attendee who is there, that no other erasure holds and no transaction of a tap is at |
| `WalletDeeds.WhenAnErasureCommits` | packages/tickets/src/erase-attendees.ts:106-108 | it commits only once it holds the row, within its own time limit, and can be given up with nothing changed |
| `WalletDeeds.WhenTheFollowUpIsDone` | packages/tickets/src/erase-wallet-passes.ts:8-18 | the follow-up settles a row exactly when nothing is left at the provider or behind, and a found pass, ten minutes or an old record make that an answer |
| `WalletDeeds.GuardedSaveCounts` | apps/web/src/admin/event-settings-routes.ts:1321-1335 | a save that needs the lock is refused when any pass is issued, and otherwise writes exactly the fields it names |
| `WalletDeeds.PlainSaveWrites` | apps/web/src/admin/event-settings-routes.ts:1331-1335 | a save that neither changes the template nor turns the expiration off writes exactly the fields it names |
| `WalletDeeds.VoidAndRestore` | packages/tickets/src/void-wallet-pass-at-provider.ts:66-99 | an active pass at the provider, of an attendee who is there, can be voided, and a voided one restored; the two together change nothing |
| `WalletWitnesses.StaleSaveBreaksAgreement` | apps/web/src/admin/event-settings-routes.ts:1282-1335 | a run in which a save compared with an outdated template leaves an issued pass under a template the event does not record |
| `WalletWitnesses.MidSaveBreaksAgreement` | apps/web/src/admin/event-settings-routes.ts:1282-1335 | a run in which such a save writes while nothing is issued but a tap stands between check and write, and the tap's pass ends under a template the event does not record |
| `WalletWitnesses.RescheduleBreaksExpiry` | apps/web/src/app.ts:1069-1100 | a run in which a reschedule between check and write leaves the row with the old end |
| `WalletWitnesses.AbandonedUpdateBreaksExpiry` | apps/web/src/app.ts:1427-1449 | a run in which an update given up on takes effect last and the provider keeps the old date |
| `WalletWitnesses.ErasedAtIsNotTheBound` | packages/tickets/src/erase-attendees.ts:106-108 | a run in which a call leaves later than erased_at plus the send deadline |
| `WalletWitnesses.VoidLetsTheLoserFail` | apps/web/src/app.ts:1340-1370 | a run with two instances and a void that ends in a failed row that was issued |
| `WalletWitnesses.SecondLeftBehindHidesTheFirst` | apps/web/src/app.ts:1318-1330 | a run in which a second pass left behind takes the first one's place on the row |
| `SessionModel.LatestEndIsTheMaximum` | packages/auth/src/session.ts:147-160 | the event-day end is that of an event the user is on duty for, none of those ends later, and there is none exactly when the user is on duty nowhere |
| `SessionModel.CookieEndsWithSession` | packages/auth/src/session.ts:163-174 | a persistent cookie is given exactly to full event-day sessions, does not outlive the session and falls short of it by less than a second |
| `SessionModel.PromotionAndRowAgreeOnCookie` | packages/auth/src/session.ts:466-471 | a promotion and a look at the row it wrote give the cookie the same lifetime |
| `SessionStore.ResolveEventDaySessionEnd` | packages/auth/src/session.ts:125-160 | the loop finds the latest end |
| `SessionStore.CreateSession` | packages/auth/src/session.ts:211-254 | the row written, stage fail-closed for users who need MFA, and no other row touched |
| `SessionStore.FinalizeLoginSession` | packages/auth/src/login.ts:174-233 | owed steps before full access, and the client told the stage the session really has |
| `SessionStore.Login` | packages/auth/src/login.ts:76-147 | after a right password: no session for an inactive account, otherwise one at the stage MFA duty, methods and trusted device require |
| `SessionStore.LoginWithPasskey` | packages/auth/src/login.ts:252-295 | after a verified assertion: never a second factor, the owed steps all the same |
| `SessionStore.LookupSessionByToken` | packages/auth/src/session.ts:256-302 | who is found and what is written: refused rows stay, an idle one is revoked, an accepted one may be touched, no other row changes |
| `SessionStore.ValidateSession` | packages/auth/src/session.ts:308-316 | accepted exactly when full, live, active, not idle and within the MFA policy |
| `SessionStore.PromoteSessionToFull` | packages/auth/src/session.ts:413-472 | one conditional update: succeeds exactly for a live row of that user at another partial stage, and rotates token, stage and expiry |
| `SessionStore.PromoteSessionToBackupCodesStep` | packages/auth/src/session.ts:380-403 | the same, only from the enrolment stage |
| `SessionStore.RevokeSession` | packages/auth/src/session.ts:522-531 | the one session is revoked, earlier revocation times stay |
| `SessionStore.Logout` | packages/auth/src/login.ts:657-675 | revokes the validated session, changes nothing without one or the second time |
| `SessionStore.RevokeOtherSessions` | packages/auth/src/revocation.ts:6-16 | every other live session of the user and no other, with their number |
| `SessionStore.RevokeUserAuthState` | packages/auth/src/revocation.ts:19-31 | all sessions and trusted devices of the user, with the number of sessions |
| `SessionRules.WhenCaughtIdle` | packages/auth/src/session.ts:79-92 | a live full session is caught idle exactly after the administrators' window for who administers anything, after the operators' for everyone else, and never on an event-day session while the switch is on; a partial one never |
| `SessionRules.WhenRefused` | packages/auth/src/session.ts:256-275 | a request is refused exactly when its session was revoked or has expired or its account is missing or inactive |
| `SessionRules.WhatARequestWrites` | packages/auth/src/session.ts:276-302 | a refused row stays, an idle one is revoked now, an accepted one has its last use noted after a minute or more |
| `SessionRules.WhenValidated` | packages/auth/src/session.ts:304-344 | validation told from rows and grants alone: live, full, not idle, no codes owed, and proof where a role requires it |
| `SessionRules.WhatALoginGives` | packages/auth/src/login.ts:109-147 | the stage a right password leads to, from duty, methods and trusted device |
| `SessionRules.WhatABareSessionGets` | packages/auth/src/session.ts:199-210 | a session made without naming a stage is never past the second factor for who is under duty |
| `SessionRules.WhenTheDayCounts` | packages/auth/src/session.ts:125-160 | the event-day end is the latest session end of the events that are on and that the user, who administers nothing, operates, while the switch is on |
| `SessionRules.WhatANewSessionIs` | packages/auth/src/session.ts:211-254 | a new session lasts 15 minutes when partial, to the end of the event day, or the administrators' or the operators' lifetime |
| `SessionRules.WhatAPromotionDoes` | packages/auth/src/session.ts:413-464 | a promotion takes exactly the live partial sessions of its user that are not yet where it leads, and writes stage, token, lifetime and proof |
| `SessionRules.WhatARevocationDoes` | packages/auth/src/revocation.ts:6-31 | the time is noted on exactly the sessions a revocation is for that were not revoked before |
| `SessionRuns.FullAndRevokedAreFinal` | packages/auth/src/session.ts:436-464 | in every run a full session keeps stage, token and expiry, and a revoked row stays exactly as it is |
| `SessionRuns.OneWinnerPerTarget` | packages/auth/src/session.ts:444-455 | of racing promotions with the same target one returns a token, as long as no other promotion takes the session to yet another stage; for full without that condition |
| `SessionRuns.WhenTheLoserWins` | packages/auth/src/session.ts:436-455 | with the session at its target a promotion fails, and a step lets it succeed if and only if the step is another promotion of the session, to one of its sources, for its user, with an expiry after the time it read |
| `SessionRuns.StepRows` | packages/auth/src/session.ts:256-464 | a row changes only by use, revocation or an eligible promotion of it |
| `SessionTokens.TokenRotation` | packages/auth/src/session.ts:366-403 | in every run a raw token finds a session exactly when it is the last one given out for it; earlier ones find nothing |
| `SessionLife.DeadStaysDead` | packages/auth/src/session.ts:256-286 | a session is refused in every later state of every run if and only if it is revoked, or expired with no chain of promotions in flight that are eligible one after the other and end after now |
| `SessionLife.CaughtIdleIsGone` | packages/auth/src/session.ts:276-285 | a request that catches a session idle ends it for good, whatever the idle window is set to later |
| `SessionLife.WhenTheDeadReturn` | packages/auth/src/session.ts:427-440 | an expired session comes back in a step if and only if an eligible promotion of it writes that read the clock before the expiry |
| `SessionLife.LifeIsBounded` | packages/auth/src/constants.ts:24-27 | at most three stage changes and 15 + 10 + 15 minutes to full; then an event-day session ends exactly with an event whose window was open by then, any other within the role TTL; when no promotion leads from the password step back to the codes |
| `SessionLife.CalmLifeIsBounded` | packages/auth/src/session.ts:176-196 | the same bound when promotions write what they would read now and nobody at the password step comes to owe codes |
| `SessionProofs.NoAccessWithoutProof` | packages/auth/src/session.ts:318-344 | in every run with the required roles fixed, an unproved local session of a user who needs MFA validates if and only if the earliest required role dates from the session's own millisecond (and the other checks hold) |
| `SessionProofs.EarliestIsTheMinimum` | packages/auth/src/session.ts:332-337 | the role the check reads is the earliest required one, and there is one exactly when the user needs MFA |
| `SessionProofs.StepProofInv` | packages/auth/src/login.ts:109-137 | every sign-in and promotion keeps it: without a proof a session waits at the first stages or predates its user's duty |
| `SessionProofs.TwinAgrees` | apps/web/src/checkin-gate.ts:132-153 | on every full session the stream's read-only check for an active account and validateSession agree |
| `SessionProofs.HeartbeatsDoNotKeepAlive` | apps/web/src/checkin-gate.ts:199-206 | in a run without use of the session its last use stays, and once that is longer ago than the window of the user's roles allows the stream closes |
| `SessionWitnesses.LatePromotionRevives` | packages/auth/src/session.ts:427-440 | a run in which a refused, expired session is live again |
| `SessionWitnesses.LatePurgeIsNoticed` | packages/auth/src/retention.ts:16-21 | a state in which a purge of an expired, refused session is noticed later |
| `SessionWitnesses.ThirdStageLetsBothWin` | packages/auth/src/session.ts:444-455 | a run in which both racing promotions to one stage return a token |
| `SessionWitnesses.SameMillisecondSlipsThrough` | packages/auth/src/session.ts:338-343 | a run in which a session without proof is accepted |
| `MfaTransactions.ConsumeRecoveryRow` | packages/auth/src/mfa/recovery-consume.ts:5-14 | a code is consumed once |
| `MfaTransactions.CompleteMfaInTransaction` | packages/auth/src/login.ts:350-399 | succeeds exactly when the code is usable and the row eligible; an unused recovery code is marked used even when the promotion fails; each failure reason exactly when it applies |
| `MfaTransactions.CompleteMfa` | packages/auth/src/login.ts:463-496 | reaches a stage exactly when the code is usable and the row eligible, and then the recovery code goes from unused to used; on an owned failure nothing changed, on a raised one the code reads used |
| `MfaTransactions.SameCodeTwice` | packages/auth/src/mfa/recovery-consume.ts:5-14 | of two completions with one recovery code the second reaches no stage |
| `MfaTransactions.CompleteMfaWithWebauthn` | packages/auth/src/login.ts:601-641 | promotes exactly when the assertion was verified and the row is eligible, raises only inside a caller's transaction |
| `MfaTransactions.CodesAreConserved` | packages/auth/src/login.ts:335-399 | over every interleaving a code nothing else used is used exactly when one completion was granted with it or one owner committed after the exception |
| `MfaTransactions.OneCodeOneGrant` | packages/auth/src/login.ts:446-462 | when owners abort on the exception, used codes and granted recoveries correspond one to one |
| `MfaTransactions.CommitPromotes` | packages/auth/src/login.ts:364-365 | a granted completion's session is that of the user who completed, and holds the new token and the time of the proof |
| `MfaTransactions.FailureGivesTheCodeBack` | packages/auth/src/login.ts:335-347 | after a failed promotion the rollback leaves the code unused and free; it is lost if and only if an owner commits all the same |
| `MfaTransactions.StepsDoWhatTheCallDoes` | packages/auth/src/login.ts:350-399 | a completion nobody is in the way of does in its steps what the call does in one |
| `StreamSlots.Counters.TryAcquire` | apps/web/src/checkin-stream-limit.ts:43-48 | counts one more, or refuses and changes nothing |
| `StreamSlots.Counters.Release` | apps/web/src/checkin-stream-limit.ts:50-57 | counts one less, the last entry goes |
| `StreamSlots.CheckinStreams.TryAcquire` | apps/web/src/checkin-stream-limit.ts:60-77 | granted exactly when both levels have room; a refusal changes neither map |
| `StreamSlots.CheckinStreams.Release` | apps/web/src/checkin-stream-limit.ts:82-89 | gives back the pair the context holds, once |
| `StreamSlots.SlotsAreConserved` | apps/web/src/checkin-stream-limit.ts:20-89 | over every sequence each counter is the number of live holders of its key and within its limit |
| `StreamSlots.WhenItIsGranted` | apps/web/src/checkin-stream-limit.ts:60-77 | a further stream is granted exactly when fewer contexts than the limit hold one on that event and fewer in all |
| `StreamSlots.NeverMoreThanTheLimits` | apps/web/src/checkin-stream-limit.ts:20-89 | from the start and over every sequence in which a context acquires once, nobody has more streams open than the limits allow, on one event and in all, and the counters say how many |
| `StreamSlots.ActorCounterIsTheSum` | apps/web/src/checkin-stream-limit.ts:20-21 | an actor's counter is the sum of its event counters |
| `StreamSlots.WhenAcquireConserves` | apps/web/src/checkin-stream-limit.ts:75-76 | a granted acquire keeps the count if and only if its context holds no slot yet |
| `StreamSlots.ReleaseUndoesAcquire` | apps/web/src/checkin-stream-limit.ts:79-89 | releasing twice is releasing once, and acquire then release is as if neither had happened |
| `Authorization.CollectScopes` | packages/auth/src/authorization.ts:93-107 | the loop collects exactly the organisations administered and the events operated |
| `Authorization.ListCheckInEvents` | packages/auth/src/authorization.ts:247-293 | exactly the events that are not archived and that the user may check in on, told from the checks and from the grants: superadmin of the instance, admin of the organisation, operator of the event |
| `Authorization.CanAccessCheckInPanel` | packages/auth/src/authorization.ts:84-124 | holds exactly when some event exists that the grants allow the user to check in on |
| `Authorization.ListAdminEventsIsManage` | packages/auth/src/authorization.ts:296-330 | exactly the events, archived ones as asked, of organisations the user is an admin of, or all for a superadmin |
| `Authorization.GetAdminEventIsManage` | packages/auth/src/authorization.ts:333-357 | an event is returned exactly when it exists and the user is a superadmin or an admin of its organisation |
| `Authorization.WhoMayDoWhat` | packages/auth/src/authorization.ts:20-55 | on an event that exists: superadmins and admins of its organisation may check in and manage, its operators check in only |
| `Authorization.WhoMayEnterThePanel` | packages/auth/src/authorization.ts:65-82 | the admin panel is for superadmins and for the admins of any organisation |
| `Authorization.MatchingKeepsOrder` | packages/auth/src/authorization.ts:287-292 | a query returns its rows once each and by date |
| `Retention.NormalizeBatchSize` | packages/auth/src/retention.ts:26-29 | at least one, the whole part of what was asked for, the default for anything unusable |
| `Retention.PurgeBatches` | packages/auth/src/retention.ts:32-82 | whatever the batch size, the loop ends, has deleted exactly what one bulk delete would, and counted it |
| `Retention.PurgeAuthRetention` | packages/auth/src/retention.ts:16-21 | in both tables exactly the rows that had not expired and were not revoked by then are left, unchanged, and the others are counted; a dry run counts the same and deletes nothing |
| `PurgeRuns.PurgeIsInvisible` | packages/auth/src/retention.ts:31-54 | in every reachable state: no request of any later run is answered differently after a deletion of sessions by id if and only if each of them is refused for good |
| `PurgeRuns.FoundThenDeleted` | packages/auth/src/retention.ts:31-54 | with anything running between the search for stale rows and their deletion: sessions refused for good when found are so when deleted, and the deletion is unnoticed if and only if all are so then |
| `PurgeRuns.FoundAreRefused` | packages/auth/src/retention.ts:16-21 | a purge finds exactly the sessions that expired or were revoked by its cutoff, and so only ones a request made now is refused with |
| `PurgeRuns.RunAlike` | packages/auth/src/retention.ts:31-54 | then every later run leads, with and without the purge, to the same rows but for the deleted ones, the same other tables and the same ids given out |
| `LineReader.Prompts.HandleLine` | packages/auth/src/cli-helpers.ts:45-49 | the oldest waiting prompt gets the line, or the line is queued |
| `LineReader.Prompts.HandleClose` | packages/auth/src/cli-helpers.ts:50-56 | every waiting prompt is rejected |
| `LineReader.Prompts.Ask` | packages/auth/src/cli-helpers.ts:57-63 | the oldest queued line, a rejection after the close, or a wait |
| `LineReader.NoLineIsLost` | packages/auth/src/cli-helpers.ts:41-64 | for every history, lines after the close included: the lines the prompts got, in the order of the prompts, followed by those queued are the lines that came, in order; the prompts that wait are the last ones, never while a line is queued or after the close |
| `LineReader.FirstInFirstOut` | packages/auth/src/cli-helpers.ts:41-64 | the k-th prompt gets the k-th line, waits for it, or is rejected once the input closed without one, if and only if no line comes after the close for a prompt that was rejected |
| `LineReader.LineAfterCloseShifts` | packages/auth/src/cli-helpers.ts:45-56 | a history in which a line after the close goes to the next prompt |
| `Base64Url.BufferToB64url` | apps/web/src/login-page.ts:103-108 | the loop builds the encoded text |
| `Base64Url.B64urlToBuffer` | apps/web/src/login-page.ts:94-101 | the loop fills the decoded bytes, nothing exactly where atob throws |
| `Base64Url.RoundTrip` | apps/web/src/login-page.ts:94-108 | decoding what was encoded gives the bytes back, for every byte sequence |
| `Base64Url.EncodedText` | apps/web/src/login-page.ts:96-107 | only the alphabet of section 5 of RFC 4648, no padding, and the recomputed padding is the stripped one |
| `Base64Url.EncodesTheStandard` | apps/web/src/login-page.ts:103-108 | every three bytes, read as one number, are the four letters read as digits, a last group filled up with zeros, as in section 4 of RFC 4648 |
| `Base64Url.AlphabetIs` | apps/web/src/login-page.ts:103-108 | the digits in their order, those of section 5 of RFC 4648 |
| `Stylesheets.DeferStylesheets` | apps/admin/build-html.ts:32-48 | the scan computes the page with its stylesheet tags deferred |
| `Stylesheets.DeferTwice` | apps/admin/build-html.ts:32-48 | for every page deferring twice is deferring once |
| `Stylesheets.OnlyStylesheetsChange` | apps/admin/build-html.ts:32-48 | the page is its text and link tags; deferring keeps every piece but the stylesheet tags |
| `Stylesheets.WhichTagsChange` | apps/admin/build-html.ts:20-30 | exactly the link tags with the stylesheet relation and neither a media query nor the mark are changed, to what is written out |
| `Stylesheets.TakenOutAgain` | apps/admin/build-html.ts:25-30 | a changed tag is an unmarked stylesheet link without media query; without the inserted attributes it is the old one up to white space before its end |
| `Stylesheets.FixedTwice` | apps/admin/build-html.ts:20-30 | a deferred tag is one tag still and is not deferred again |

## Left out

- The wallet flow is a transition system over values and not a class with methods: its subject is what happens between two
  statements of concurrent requests, which a method contract cannot say. Each database transaction that takes a lock is a run
  of steps; reads and conditional updates outside transactions are one step each.
- WalletAgreement.SavedPassesAgree: needs every save to be safe when it writes, because the code does not ensure it;
  CommitIsSafeExactly and FirstUnsafeSaveBreaks show that this is the exact condition.
- WalletExpiry.SavedExpiryAgrees: needs every update that takes effect to carry the date of the taps relying on its pass, and
  for the event's end no save between check and write; LandKeepsExactly and CommitKeepsEnds are the exact conditions of a
  step, WhenSavedExpiryAgrees that of a save.
- WalletWinner.OneWinner: a call whose tap gave up or died may still be on its way to the provider while the next creation of
  the attendee starts.
- SessionLife.LifeIsBounded: the role TTL is the larger of the two at any time of the run, as the role of the user and the
  settings may change.
- SessionProofs.NoAccessWithoutProof: sign-in is one step, and the required roles stay what they are.
- Authorization.ListCheckInEvents: ids are non-empty strings, as the database makes them; the lists drop empty scope ids and
  the pointwise checks do not.
- PurgeRuns.PurgeIsInvisible: trusted devices are not part of the session machine.
- Retention.PurgeBatches: which rows a batch takes first (by expiry) is left open, and nobody else deletes meanwhile.
- Wallet: the provider's HTTP client, pacing and retries are reduced to calls that leave, take effect within a latency, are
  refused or get lost; its search may find or miss a pass; the second search after a pause is folded into the first.
- Wallet: a change of the API key alone while a pass is made is not detected by the save in the code either; which account a
  pass is in is not part of this model.
- Wallet: error codes, logging, install-link columns per platform, ticket resolution, the reads of a tap that are not guarded
  against a database error, and staff actions that delete or replace pass rows (reset, reissue).
- Wallet: the erasure's follow-up reads and settles a row in one step; the bound on its retries per row is left out.
- Sessions: the lookup's read and its write of the last use are one step; device labels, IP addresses and time zones of
  sessions, session listing, role cleanup of operator sessions, OIDC beyond the session it creates, and Cloudflare Access.
- Sessions: `eventDayWindow` itself (calendar days and daylight saving); an event carries its window.
- MFA: verification of codes and assertions, TOTP replay, trusted-device rows, audit records and alerts.
- Password hashing, token generation and hashing: tokens are fresh and a hash belongs to one token.
- HTTP routing, rate limits, rendering and the administration user interface.
