# Verified models of the booking platform's client and server protocols

This project models the parts of the ticketing platform whose correctness depends on order:
concurrent requests, races with login and logout, transactions over one table, and a few
arithmetic routines. Each model follows the TypeScript or JavaScript code branch by branch, and the
theorems are about every run, every interleaving or every input.

A JavaScript function runs without interruption from one `await` to the next, so each such stretch is
one function from state to state. Next to the functions stands a class with the fields and maps the
code really updates; every method is proved equal to the function of its stretch, and the theorems are
proved about the functions.

`dafny verify dfyconfig.toml` checks everything.

## The models

**Seat locks** (`SeatLock*.dfy`). The seat page keeps a selection and locks the selected seats on the
server with concurrent lock, unlock and release-all requests. `SeatLockPage` has the controller's
stretches, `SeatLockWorld` adds the server (which applies a release-all seat by seat), the network,
the clicks and the my-locks snapshots in any order. The invariant (`SeatLockInvariant`) is stated
seat by seat. The main results: once nothing is pending for a showtime, the locks the server holds are
the selected seats plus the locks whose release the server refused or left undone (none with definite
answers); a current snapshot shows exactly the locks held; lock requests exclude each other and
releases; a lock beyond the user's limit waits for the releases under way (`SeatLockReleases`); every
pending operation can go on, and without clicks the page comes to rest. The
controller relies on its callers for two things, and `SeatLockGuards` proves both conditions exact in
every reachable world. A lock click must be for the selected showtime and an unselected seat (or add
nothing to the selection), unless the seat's own operation there still runs. A change of showtime must
release the old one exactly when it leaves it, unless every selected seat's own operation still runs.

**Batched reads** (`FreshReadBatcher.dfy`, `CoalescedReads.dfy`). Reads joined into batches: no waiter
is lost or answered twice, an answer comes from a load that started after the read, and a key waits
for a fixed number of flushes whatever arrives meanwhile.

**Seat events** (`SeatUpdates.dfy`). Every seat change arrives as a v2 event and, later, as a legacy
copy. The handlers with their echo lists and buffered writes leave the same state as applying the v2
events alone.

**Session restore and token refresh** (`SessionRestore*.dfy`, `TokenRefresh.dfy`). Restoring a session
after a page load races with login, logout and renewal; the generation counter keeps it from ever
overwriting a newer session. Answers that say nothing about the session keep the page retrying, refusals
end it, and a found session is set. A refresh run stays within its time budget.

**Benefit rights** (`Benefit*.dfy` except the editor's). Three transactions write one table of rights
under two partial unique indexes: restoring the rights of a rejected cancellation, issuing configured
rights, and repairing missing ones. They agree on what a ticket is entitled to.

**Benefit editor** (`BenefitEditor.dfy`, `BenefitCanonical.dfy`, with `Texts.dfy` and `Sorting.dfy`).
A saved configuration survives the round trip through the form's text fields exactly when its tier
names have no commas.

**Arithmetic and codecs** (`Int32.dfy`, `Base64Url.dfy`, `Cidr.dfy`, `Ipv6.dfy`, `ServerClock.dfy`).
ECMAScript's 32-bit operators on mathematical integers; base64url decoding through an unmasked
buffer; CIDR membership as intervals; the error bound of the corrected clock.

**Queue and pool** (`QueueAccess.dfy`, `PoolCheckout.dfy`). When the page may say that the server
ended an admission, and how often a guarded database checkout gives its client back. The guard's
release and query functions sit on the client object, which later checkouts of it share; the theorems
say exactly which late uses of a client reach another checkout.

## Where the code and its documentation differ

- `apps/web/hooks/use-booking.ts:493-497` says the sequence number is taken once the server answered;
  the code (501-511) takes it after a transport failure too. The model takes it in both cases.
- `apps/web/lib/server-clock.ts:60-61` reads disjoint bounds as a changed device clock. Because an
  insignificant offset is stored as zero (93-95), an unchanged clock can trigger it too
  (`ServerClock.ZeroingLetsSlowerReplace`); the bound on the corrected time holds regardless.
- `apps/api/src/database/drizzle.provider.ts:130-134` promises that a later release for the same
  checkout does nothing. After a rejected begin that is so (`PoolCheckout.LateUseAfterRejectionIsHarmless`).
  After an ordinary release the holder's client may be out again, and then `client.release` is the next
  checkout's (164): the late release ends that one (`PoolCheckout.LateReleaseEndsAnother`).
- `apps/web/components/admin/admin-benefit-manager.tsx:1269` promises an order-free comparison of what a
  live run would apply. Tier names may hold commas (`packages/shared/src/schemas/performance.schema.ts:142`,
  `packages/shared/src/schemas/benefit.schema.ts:77-79`), which the form's lists cannot
  (`BenefitCanonical.CommaReportsChange`).
- `apps/api/src/common/request-ip.ts:246` accepts prefix lengths outside 0 to 32, for which the shift
  count wraps (`Cidr.Ipv4PrefixWraps`).

## Model

| member | source | states |
|---|---|---|
| SeatLockSafety.StepKeepsInv | apps/web/hooks/use-seat-lock-controller.ts:157-318 | every step of the page, the server and the network keeps the invariant of every seat, request and snapshot |
| SeatLockSafety.RunKeepsInv | apps/web/hooks/use-seat-lock-controller.ts:157-318 | so does every run, in every interleaving |
| SeatLockSafety.IdleShowtime | apps/web/hooks/use-seat-lock-controller.ts:342-351 | with nothing pending for a showtime its locks on the server are its selected and its leaked seats, and no seat is both |
| SeatLockSafety.LocksMatchSelection | apps/web/hooks/use-seat-lock-controller.ts:97-109 | after any run from any mount an idle showtime has no hidden lock and no selected seat without a lock, exactly when nothing leaked |
| SeatLockSafety.DefiniteAnswersMatchExactly | apps/web/hooks/use-seat-lock-controller.ts:194-318 | when the server answers definitely for a showtime and carries out its releases, its locks at rest are exactly its selected seats, from a mount that found no lock of it or once a snapshot was reconciled or a release-all finished |
| SeatLockSafety.ClearingStepClears | apps/web/components/booking/booking-page.tsx:714-745 | reconciling a snapshot of a showtime, or finishing its release-all, leaves none of its locks leaked |
| SeatLockSafety.RequestsExclude | apps/web/hooks/use-seat-lock-controller.ts:201-205 | at most one lock request per seat is in flight, and never together with an unlock of the seat |
| SeatLockSafety.LockIsSentAlone | apps/web/hooks/use-seat-lock-controller.ts:219-244 | a lock is sent only while no lock or unlock of the seat and no release-all of the showtime is in flight |
| SeatLockReleases.LockWaitsForReleases | apps/web/hooks/use-seat-lock-controller.ts:207-227 | no lock of a clicked seat is in flight, over any run, before every release it has to wait for is settled: those of the seat and the showtime, and, without a limit or beyond it, of every other seat released or dropped at the click |
| SeatLockReleases.ClickSendsExactly | apps/web/hooks/use-seat-lock-controller.ts:194-232 | the click itself sends the lock if and only if the showtime is selected and no such release is under way |
| SeatLockReleases.WakeSendsExactly | apps/web/hooks/use-seat-lock-controller.ts:227-233 | once they are settled the lock is sent, unless the seat was dropped or is being released again |
| SeatLockReleases.CountOfReleases | apps/web/hooks/use-seat-lock-controller.ts:179-192 | what is counted against the limit is each other seat being unlocked and each dropped seat still being locked |
| SeatLockSafety.CurrentSnapshot | apps/web/hooks/use-seat-lock-controller.ts:353-357 | a snapshot that passes the test saw every operation of its showtime and shows exactly the locks held now |
| SeatLockSafety.ReconcileFindsLeaks | apps/web/components/booking/booking-page.tsx:714-745 | with nothing pending for the selected showtime a snapshot can be requested, read and reconciled, and then the selection is what the server holds and nothing is leaked |
| SeatLockLiveness.SystemStepProgresses | apps/web/hooks/use-seat-lock-controller.ts:218-279 | every step of the server, the network and the page's own continuations lowers a lexicographic measure, also the re-lock loop's |
| SeatLockLiveness.SnapshotStepsAreFree | apps/web/components/booking/booking-page.tsx:714-745 | requesting, reading and reconciling snapshots never raises the measure |
| SeatLockLiveness.OnlySnapshotsForEver | apps/web/hooks/use-seat-lock-controller.ts:218-279 | an endless run without clicks has only finitely many steps that are not snapshot steps |
| SeatLockLiveness.PendingCanMove | apps/web/hooks/use-seat-lock-controller.ts:360-368 | while anything is pending some step is possible: operations wait only for requests or for older operations |
| SeatLockLiveness.NoEndlessRun | apps/web/hooks/use-seat-lock-controller.ts:218-279 | with neither clicks nor snapshots no run goes on for ever |
| SeatLockLiveness.SystemReachesIdle | apps/web/hooks/use-seat-lock-controller.ts:360-368 | from every reachable world the page can come to rest, with locks equal to selection and leaks |
| SeatLockGuards.ClickGuardIsExact | apps/web/components/booking/booking-page.tsx:932-1005 | in every reachable world a lock click meets its guard if and only if locks and selection match wherever the server and the network then bring the page to rest |
| SeatLockGuards.SwitchGuardIsExact | apps/web/components/booking/booking-page.tsx:806-847 | the same for a change of showtime and its guard, with and without a release-all |
| SeatLockGuards.RelockLosesSeat | apps/web/hooks/use-seat-lock-controller.ts:245-252 | in every reachable world, locking a selected seat that has no operation of its own can end with the seat held and not selected |
| SeatLockGuards.LockClickLocks | apps/web/hooks/use-seat-lock-controller.ts:194-280 | a lock click selects its seat and starts its operation, and wherever the page then comes to rest a seat still selected is locked |
| SeatLockGuards.ReleaseClickReleases | apps/web/hooks/use-seat-lock-controller.ts:289-299 | a released seat leaves the selection, alone, and ends unselected and released, unless the server refused to or left it undone |
| SeatLockGuards.ClearClickReleases | apps/web/components/booking/booking-page.tsx:1042-1049 | so does every seat of the showtime after a clear |
| SeatLockGuards.LeavingReleases | apps/web/components/booking/booking-page.tsx:827-847 | and after leaving the showtime, with the next one selected and no seats |
| SeatLockController.BookingStore.AddSeat | apps/web/stores/use-booking-store.ts:110-120 | adds the seat once |
| SeatLockController.BookingStore.RemoveSeat | apps/web/stores/use-booking-store.ts:122-133 | removes exactly this seat from the selection |
| SeatLockController.BookingStore.SetShowtime | apps/web/stores/use-booking-store.ts:100-108 | keeps the selection when the showtime stays, drops it otherwise |
| SeatLockController.Controller.StartUnlock | apps/web/hooks/use-seat-lock-controller.ts:157-177 | joins a pending unlock of the seat or sends one |
| SeatLockController.Controller.CollectReleases | apps/web/hooks/use-seat-lock-controller.ts:179-192 | the loops collect exactly the promises of other seats' unlocks and dropped locks |
| SeatLockController.Controller.LockSeatClick | apps/web/hooks/use-seat-lock-controller.ts:194-232 | a click runs the first stretch of the lock operation |
| SeatLockController.Controller.OnLockAnswer | apps/web/hooks/use-seat-lock-controller.ts:245-279 | the operation's stretch after the answer of its request |
| SeatLockController.Controller.OnSettled | apps/web/hooks/use-seat-lock-controller.ts:218-233 | the operation's stretch after the promises it waited for |
| SeatLockController.Controller.OnUnlockAnswer | apps/web/hooks/use-seat-lock-controller.ts:164-173 | an answered unlock is no longer pending, whatever the answer |
| SeatLockController.Controller.OnReleaseAllAnswer | apps/web/hooks/use-seat-lock-controller.ts:306-315 | an answered release-all is no longer pending, whatever the answer |
| SeatLockController.Controller.ReleaseSeat | apps/web/hooks/use-seat-lock-controller.ts:289-299 | drops the seat; a pending lock releases itself |
| SeatLockController.Controller.ReleaseAll | apps/web/hooks/use-seat-lock-controller.ts:301-318 | bumps the generation and joins or sends the release-all |
| SeatLockController.Controller.ClearSelection | apps/web/components/booking/booking-page.tsx:1042-1049 | the clear and its release-all as one click |
| SeatLockController.Controller.ChangeShowtime | apps/web/components/booking/booking-page.tsx:827-847 | leaves a showtime with a release-all when it may hold seats |
| SeatLockController.Controller.MarkServerResponse | apps/web/hooks/use-seat-lock-controller.ts:119-121 | an answer takes the next sequence number for its showtime |
| SeatLockController.Controller.CheckSnapshot | apps/web/hooks/use-seat-lock-controller.ts:342-357 | decides whether a snapshot is current |
| FreshReads.EveryReadOnce | apps/api/src/common/fresh-read-batcher.ts:26-66 | in every reachable state a read is in exactly one place; a settled one got the value a load begun after it has for its key, none if that load has none, or its error; an open one has a flush scheduled or running |
| FreshReads.QueueAdvances | apps/api/src/common/fresh-read-batcher.ts:43-51 | each flush moves a waiting key forward by a full batch, whatever is read meanwhile |
| FreshReads.LoadedInTurn | apps/api/src/common/fresh-read-batcher.ts:43-53 | a key at position p is loaded by flush p / maxBatchSize + 1 |
| FreshReads.SettledInTurn | apps/api/src/common/fresh-read-batcher.ts:52-65 | and its waiters are settled with the value of their key in the answer of that very load, or with its error |
| FreshReads.RunKeepsInv | apps/api/src/common/fresh-read-batcher.ts:12-67 | one load at a time, batches within the limit, no waiter lost, over every run |
| FreshReadBatcher.FreshReadBatcher.Create | apps/api/src/common/fresh-read-batcher.ts:17-24 | refuses a batch size below one |
| FreshReadBatcher.FreshReadBatcher.Read | apps/api/src/common/fresh-read-batcher.ts:26-34 | one more waiter of the key, and a flush scheduled |
| FreshReadBatcher.FreshReadBatcher.FlushStart | apps/api/src/common/fresh-read-batcher.ts:43-53 | the loop takes the first keys, up to the limit, out of the pending map |
| FreshReadBatcher.FreshReadBatcher.FlushEnd | apps/api/src/common/fresh-read-batcher.ts:54-65 | the loops settle every waiter of the batch and schedule the next flush |
| CoalescedReads.EntriesAreTheAwaitedKeys | apps/api/src/common/fresh-read-batcher.ts:74-98 | an entry exists exactly while calls for its key are open |
| CoalescedReads.OneLoadPerKey | apps/api/src/common/fresh-read-batcher.ts:74-98 | at most one load of a key runs at a time, also across entries that come and go |
| CoalescedReads.ReturnsFreshValue | apps/api/src/common/fresh-read-batcher.ts:88-97 | a call returns the value of its key, or the error, of a load of the key that started after the call |
| CoalescedReads.CallsGoThrough | apps/api/src/common/fresh-read-batcher.ts:79-97 | a call can always be made, and returns as soon as its read is settled |
| CoalescedReads.EveryCallReturns | apps/api/src/common/fresh-read-batcher.ts:79-97 | every open call can return, after at most three moves of its batcher, whatever the loads answer |
| CoalescedReads.CallIsMade | apps/api/src/common/fresh-read-batcher.ts:79-90 | a call opens one read for its key, not settled yet |
| SeatUpdates.CopiesAreDropped | apps/web/hooks/use-socket.ts:124-173 | with every legacy copy in turn and in time, the handlers leave the state that the v2 events alone leave, in any mix with flushes and snapshots |
| SeatUpdates.LegacyAloneIsApplied | apps/web/hooks/use-socket.ts:148-173 | on a stream without v2 events every legacy event is applied |
| SeatUpdates.SeatMapShowsLastUpdate | apps/web/hooks/use-socket.ts:89-108 | after any delivered prefix and a flush each seat shows its last v2 state, and the others are as before |
| SeatUpdates.SnapshotKeepsNewerEvent | apps/web/lib/booking/seat-event-overlay.ts:82-130 | a snapshot read before the last event of a seat does not undo that event |
| SeatUpdates.SnapshotShowsResponse | apps/web/lib/booking/seat-event-overlay.ts:102-130 | a landed snapshot shows the response for every seat without an event since the cutoff that is still kept, and of the other seats only such an event, under its raw id |
| SeatUpdates.CutoffIsSafe | apps/web/lib/booking/seat-event-overlay.ts:80-98 | events received since the response was read count as newer, with half a second to spare, and the cutoff is no earlier than that needs |
| SeatUpdates.StaleAreForgotten | apps/web/lib/booking/seat-event-overlay.ts:46-52 | after an event or a snapshot no recorded event is older than ten seconds |
| SeatUpdates.BufferedAreFlushed | apps/web/hooks/use-socket.ts:80-117 | a flush is scheduled exactly while updates are buffered |
| SeatUpdates.LegacyDroppedExactly | apps/web/hooks/use-socket.ts:148-173 | a legacy event is dropped if and only if a copy of its status is expected and not older than ten seconds, and then one copy fewer is expected; any other is applied |
| SeatUpdates.StrangeLegacyIsApplied | apps/web/hooks/use-socket.ts:148-173 | on any stream, a legacy event without a v2 event of its seat and status in the last ten seconds is applied |
| BookingSocket.BookingSocket.FlushSeatUpdates | apps/web/hooks/use-socket.ts:89-108 | writes the last buffered state of each seat into whatever the cache holds |
| BookingSocket.BookingSocket.HandleSeatUpdateV2 | apps/web/hooks/use-socket.ts:138-146 | applies the event and expects a copy of it unless it is a lock |
| BookingSocket.BookingSocket.HandleLegacySeatUpdate | apps/web/hooks/use-socket.ts:148-173 | drops the first matching expected copy, applies anything else |
| BookingSocket.BookingSocket.LiveEchoes | apps/web/hooks/use-socket.ts:153-155 | the loop keeps exactly the copies still within the window |
| BookingSocket.BookingSocket.IndexOfStatus | apps/web/hooks/use-socket.ts:156 | finds the first expected copy with the status |
| BookingSocket.BookingSocket.ReceiveSnapshot | apps/web/lib/booking/seat-event-overlay.ts:102-130 | replaces the cache with the snapshot and the newer events on top |
| SessionRestoreSafety.RestoreIsCurrent | apps/web/lib/auth.ts:87-127 | a restore sets the session only if no login, logout or renewal happened since it began |
| SessionRestoreSafety.RestoredTokenIsCurrent | apps/web/lib/auth.ts:91-126 | a restored token was issued by the refresh, with no change of session since the refresh was answered |
| SessionRestoreSafety.UnconfirmedIsCurrent | apps/web/lib/auth.ts:20-42 | a kept unconfirmed token survives only while the session does not change |
| SessionRestoreSafety.SessionIsNeverReplaced | apps/web/lib/auth.ts:53-64 | restoring never replaces a session that exists, and sets one only by applying its own result |
| SessionRestoreSafety.GenerationCountsChanges | apps/web/lib/auth.ts:30-42 | only a login, logout or renewal that is not a mere flag change starts a new generation |
| SessionRestoreSafety.OneRestoreAtATime | apps/web/lib/auth.ts:66-81 | two restores are never in flight together, nor one while the next is scheduled |
| SessionRestoreSafety.NoticeHasRetry | apps/web/lib/auth.ts:152-180 | the restore-pending notice is up only with an armed timer or a background restore in flight |
| SessionRestoreAnswers.OutageKeepsRetrying | apps/web/lib/auth.ts:151-180 | from an answer on that says nothing about the session the page keeps retrying, at most a minute apart, until the API gives or refuses a session, or the user logs in |
| SessionRestoreAnswers.OutageIsRetried | apps/web/lib/auth.ts:73-82 | an unavailable refresh, or a profile unavailable after the last delay, leaves the notice up and a retry armed after 10, 30 or 60 s |
| SessionRestoreAnswers.RefusalIsFinal | apps/web/lib/auth.ts:103-126 | no session to refresh, a rejected profile, or an answer made stale by a session change leaves no retry and no notice |
| SessionRestoreAnswers.FoundSessionIsSet | apps/web/lib/auth.ts:103-119 | a refreshed token whose profile loads becomes the session, if the session did not change in between |
| SessionRestoreAnswers.ProfileIsReadAgain | apps/web/lib/auth.ts:108-114 | a profile that cannot be read is read again after each delay, and only after the last it is an outage |
| SessionRestoreAnswers.TokenIsKept | apps/web/lib/auth.ts:120-125 | and then the token is kept |
| SessionRestoreAnswers.RestoresStart | apps/web/lib/auth.ts:87-104 | the first mount, and the timer without a session, start a restore with the kept token or the refresh cookie |
| SessionRestoreAnswers.KeptTokenIsTried | apps/web/lib/auth.ts:91-101 | a kept token gives the session with its profile, and is given up for the refresh only when rejected |
| SessionRestoreAnswers.RestoreCanGoOn | apps/web/lib/auth.ts:87-127 | what a restore waits for can always come, and with the notice up and no restore running the timer is armed |
| SessionRestoreAnswers.SessionChangesAreMade | apps/web/stores/use-auth-store.ts:28-29 | a login is the session from then on, and after a logout there is none |
| SessionRestoreAnswers.FirstRestoreInitializes | apps/web/lib/auth.ts:78-81 | a fresh page is not initialized, and is once its first restore resumed or the user logged in |
| SessionRestoreAnswers.DefectEnds | apps/web/lib/auth.ts:174-178 | a restore that throws leaves no restore, no retry and no notice |
| SessionRestoreAnswers.KeptTokenStays | apps/web/lib/auth.ts:91-97 | only an answer or a session change touches a kept token |
| SessionRestorePage.AuthSession.Subscriber | apps/web/lib/auth.ts:30-42 | a new generation and no kept token, unless the update is the restore's own or only a flag |
| SessionRestorePage.AuthSession.StoreSetAuth | apps/web/stores/use-auth-store.ts:28 | sets the session and ends the notice |
| SessionRestorePage.AuthSession.StoreClearAuth | apps/web/stores/use-auth-store.ts:29 | clears the session; counts as a change also when it was empty |
| SessionRestorePage.AuthSession.StoreSetPending | apps/web/stores/use-auth-store.ts:33-34 | an unchanged value notifies nobody |
| SessionRestorePage.AuthSession.ApplyRestoredSession | apps/web/lib/auth.ts:53-64 | applies the session only in its own generation and only if there is none |
| SessionRestorePage.AuthSession.UnconfirmedProfile | apps/web/lib/auth.ts:91-101 | the stretch after the profile was read with a kept token |
| SessionRestorePage.AuthSession.AfterRefresh | apps/web/lib/auth.ts:103-109 | the stretch after the refresh |
| SessionRestorePage.AuthSession.AfterProfile | apps/web/lib/auth.ts:110-126 | the stretch after a profile read: retry, apply, keep the token or give up |
| SessionRestorePage.AuthSession.Initialize | apps/web/lib/auth.ts:66-71 | concurrent callers share one restore |
| SessionRestorePage.AuthSession.ScheduleBackgroundRestore | apps/web/lib/auth.ts:152-159 | raises the notice and arms the timer with the delay of the attempt |
| SessionRestorePage.AuthSession.TimerCallback | apps/web/lib/auth.ts:159-167 | ends the notice if a session exists, else starts the next restore |
| SessionRestorePage.AuthSession.Resume | apps/web/lib/auth.ts:73-81 | schedules the next retry after an outage and marks the page initialized, or ends the notice |
| SessionRestorePage.AuthSession.Fail | apps/web/lib/auth.ts:174-178 | a background restore that throws ends the notice |
| TokenRefresh.RefreshRun.WithCrossTabRefreshLock | apps/web/lib/api-client.ts:154-177 | the refresh runs exactly once, with the lock, without it, or where locks are unsupported; a lock request that fails after the refresh ran under it is rethrown and not run again |
| TokenRefresh.RefreshRun.RefreshWithRetries | apps/web/lib/api-client.ts:91-122 | every request leaves within 20 s of the first, at most two more than there are delays are sent, signed_out is reported exactly for a 204, or a 401 to a second or later request, unavailable only when the delays are used up or the budget allows no further request, and the run throws only where a granted lock request failed |
| TokenRefresh.JitterIsBounded | apps/web/lib/api-client.ts:179-181 | a wait lies within 80 to 120 percent of its delay, rounded |
| BenefitRejection.PendingRightIsDecided | apps/api/src/database/benefit-entitlement-restoration.ts:100-129 | a pending right of a restored item returns exactly when its run is the latest live run, or its benefit is still configured for the tier, and otherwise says why not |
| BenefitRejection.StillValidExactly | apps/api/src/database/benefit-entitlement-restoration.ts:100-129 | valid are a limited right of the newest run, and a configured included right whose benefit a current included one of that identity has for the tier |
| BenefitRejection.LatestRunIs | apps/api/src/database/benefit-entitlement-restoration.ts:85-94 | the run is the newest completed live one of the showtime, by creation time and then id |
| BenefitRejection.NothingLeftPending | apps/api/src/database/benefit-entitlement-restoration.ts:31-134 | no right of a restored item stays cancellation_pending |
| BenefitRejection.OtherRowsUntouched | apps/api/src/database/benefit-entitlement-restoration.ts:79-84 | every other row keeps its place and content |
| BenefitRejection.RepairFindsNothing | apps/api/src/database/benefit-entitlement-restoration.ts:132-133 | after restoring, a repair run of any showtime finds no missing included right for the restored items |
| BenefitRejection.RestoreKeepsIndex | apps/api/src/database/schema/ticket-benefits.ts:259-264 | the restored table satisfies both partial unique indexes |
| BenefitRejection.IndexesAre | apps/api/src/database/schema/ticket-benefits.ts:259-264 | what the two indexes exclude, row by row |
| BenefitRejection.RestoreCommitsExactly | apps/api/src/database/benefit-entitlement-restoration.ts:56-134 | the transaction commits if and only if the showtimes exist and the rights still valid do not collide with each other or with rights in the table |
| BenefitRejection.RestoreFailsFor | apps/api/src/database/benefit-entitlement-restoration.ts:56-134 | a restore that fails reports a missing showtime of a restored item, or a collision |
| BenefitRejection.RestoreAgain | apps/api/src/database/benefit-entitlement-restoration.ts:31-134 | restoring the same items again changes nothing |
| BenefitRejection.RejectionUndoesRequest | apps/api/src/modules/refund/refund.service.ts:2004-2006 | requesting a cancellation and rejecting it gives back the table if and only if every active right is still valid under its current copy, none was pending and none was missing |
| BenefitRestore.EachRestored | apps/api/src/database/benefit-entitlement-restoration.ts:49-59 | restoring showtime after showtime decides each row as if all were restored at once |
| BenefitRestore.SyncExtends | apps/api/src/database/included-benefit-entitlements.ts:45-75 | issuing only adds configured rights of the items, keeps the indexes, and leaves no entitled item without a live right |
| BenefitRestore.IssueAllIdle | apps/api/src/database/included-benefit-entitlements.ts:72-75 | issuing changes nothing when every right is there |
| BenefitRights.LocksAscend | apps/api/src/database/benefit-entitlement-restoration.ts:56-58 | showtime rows are locked in ascending order |
| BenefitRepair.CommittedRun | apps/api/src/ops/included-benefit-repair.ts:112-150 | a run that commits appends exactly the rows of the reviewed candidates, each linked to the audit row, for tickets still sold and active and without that right |
| BenefitRepair.ApplyCommitsExactly | apps/api/src/ops/included-benefit-repair.ts:87-151 | with the showtime held, an apply run commits if and only if the reviewed digest is the candidates', keeps the indexes, and leaves nothing missing |
| BenefitRepair.DryRunForetellsApply | apps/api/src/ops/included-benefit-repair.ts:113-155 | a dry run changes nothing and reports what an apply run with its digest then inserts |
| BenefitRepair.RepairGivesRights | apps/api/src/ops/included-benefit-repair.ts:87-151 | after an apply run with the showtime held every sold and active ticket has every included right of its tier |
| BenefitRepair.RepairInsertsDue | apps/api/src/ops/included-benefit-repair.ts:87-148 | every row inserted is an active right of a sold and active ticket to a current included benefit of its tier that it lacked |
| BenefitRepair.DryRunCountsExactly | apps/api/src/ops/included-benefit-repair.ts:87-111 | a dry run counts the sold tickets that lack a right, and reports none missing if and only if each has all of its rights |
| BenefitRepair.AllLockable | apps/api/src/ops/included-benefit-repair.ts:181-199 | the count of locked tickets is right if and only if every candidate ticket is still sold and active |
| BenefitRepair.RepairFailsFor | apps/api/src/ops/included-benefit-repair.ts:84-163 | a run that fails reports a missing showtime, and otherwise that the candidates, their tickets or their rights changed |
| BenefitRejection.CurrentIncludedAre | apps/api/src/database/included-benefit-entitlements.ts:22-40 | current are the included benefits of the newest configuration of the showtime |
| BenefitTransactions.RowsIssueAll | apps/api/src/database/included-benefit-entitlements.ts:45-66 | the rows built for the multi-row insert issue each benefit to each ticket of its tiers |
| BenefitTransactions.RightsTable.SyncIncluded | apps/api/src/database/included-benefit-entitlements.ts:9-76 | issues the configured rights, skipping live ones, or reports a missing showtime |
| BenefitTransactions.RightsTable.RestoreShowtimeEntitlements | apps/api/src/database/benefit-entitlement-restoration.ts:61-134 | updating the pending rows one by one, in any order, ends in the restored table, or fails if and only if that table violates an index |
| BenefitTransactions.RightsTable.RestoreCancellationPending | apps/api/src/database/benefit-entitlement-restoration.ts:31-59 | the whole restore: grouped, in order, all or nothing |
| BenefitTransactions.RightsTable.GroupByShowtime | apps/api/src/database/benefit-entitlement-restoration.ts:49-54 | the loop groups exactly the items of each showtime, in order |
| BenefitTransactions.RightsTable.LockCandidateTickets | apps/api/src/ops/included-benefit-repair.ts:181-199 | counting chunk by chunk accepts if and only if every ticket is still sold and active |
| BenefitTransactions.RightsTable.ApplyCandidates | apps/api/src/ops/included-benefit-repair.ts:140-150 | inserting chunk by chunk inserts all candidates or, if one collides, none |
| BenefitTransactions.RightsTable.RepairIncluded | apps/api/src/ops/included-benefit-repair.ts:74-164 | the repair run, dry or applied, all or nothing |
| Base64Url.DecodeInvertsEncode | scripts/k6/lib/phase26-load.js:313-329 | decoding gives back every byte sequence from its encoding of section 5 of RFC 4648, padded or not |
| Base64Url.Push | scripts/k6/lib/phase26-load.js:321 | the low bits of the unmasked 32-bit buffer are the last two values, whatever overflowed |
| Base64Url.Pop | scripts/k6/lib/phase26-load.js:325 | the sign of the buffer never reaches the byte taken out |
| Base64Url.Base64UrlDecode | scripts/k6/lib/phase26-load.js:313-329 | the loop yields the whole bytes of the bit string, and fails if and only if a character before the padding is in no alphabet |
| Cidr.Ipv4Value | apps/api/src/common/request-ip.ts:250-257 | the folded octets are the address as a number, despite signed 32-bit shifts |
| Cidr.Ipv4InCidrIsInterval | apps/api/src/common/request-ip.ts:238-248 | for prefix lengths 0 to 32 an address is in the network if and only if it is in the interval (section 3.1 of RFC 4632) |
| Cidr.Ipv4PrefixWraps | apps/api/src/common/request-ip.ts:246 | any other length acts as one in 1 to 32 |
| Cidr.OnlyIpv4 | apps/api/src/common/request-ip.ts:238-245 | an address or network that is not IPv4, or a prefix that is not an integer, never matches |
| Ipv6.ParsesText | apps/api/src/common/request-ip.ts:271-297 | every valid text without an IPv4 tail parses to the number of its eight groups |
| Ipv6.CompressionKeepsValue | apps/api/src/common/request-ip.ts:275-286 | "::" never changes the parsed value (section 2.2 of RFC 4291) |
| Ipv6.HexDigitsAre | apps/api/src/common/request-ip.ts:292-297 | the digits are 0 to 9 and a to f in either case |
| Ipv6.Ipv6InCidrIsInterval | apps/api/src/common/request-ip.ts:259-269 | for prefix lengths 0 to 128 an address is in the network if and only if it is in the interval (section 2.3 of RFC 4291) |
| Ipv6.LongPrefixIsEquality | apps/api/src/common/request-ip.ts:267-268 | a length over 128 matches only the very address |
| Ipv6.ShortPrefixMatchesAll | apps/api/src/common/request-ip.ts:267-268 | a length of zero or below matches every address |
| Ipv6.OnlyIpv6 | apps/api/src/common/request-ip.ts:259-266 | an address or network that is not IPv6, or a prefix that is not an integer, never matches |
| ServerClock.RunStaysClose | apps/web/lib/server-clock.ts:76-110 | with an unchanged device clock and honest samples the adopted offset stays within rtt + 250 ms, plus rounding, over any run |
| ServerClock.KeptIsTightest | apps/web/lib/server-clock.ts:47-64 | the kept sample is a recorded one, and every valid sample since had a longer round trip, came within the age limit and agrees with it |
| ServerClock.AdoptedAtOnce | apps/web/lib/server-clock.ts:47-64 | a sample that is not slower, or comes from before the kept one or more than ten minutes after it, is adopted |
| ServerClock.MeasurementsAgree | apps/web/lib/server-clock.ts:91 | two measured offsets differ by at most half the summed round trips, plus rounding |
| ServerClock.SlowerReplacesExactly | apps/web/lib/server-clock.ts:54-64 | when a slower fresh sample takes over on an unchanged clock: with one offset zeroed, if and only if the other exceeds half the summed round trips (always when the zeroed sample took at most 500 ms); with both, never; with none, only within rounding |
| ServerClock.ZeroingLetsSlowerReplace | apps/web/lib/server-clock.ts:93-95 | and with zeroing it does happen |
| ServerClock.ClockChangeIsNoticed | apps/web/lib/server-clock.ts:60-63 | a change of the device clock beyond both samples' error is noticed by the next sample |
| ServerClock.WholeMillisecondsAreHonest | apps/web/lib/server-clock.ts:15-22 | readings of clocks that tick in whole milliseconds are honest samples |
| ServerClock.Clock.RecordServerTimeSample | apps/web/lib/server-clock.ts:76-110 | keeps or replaces the sample, and notifies exactly when the offset changes |
| BenefitEditor.CsvTrims | apps/web/components/admin/admin-benefit-manager.tsx:1294-1299 | a list comes back from joining and splitting trimmed, item by item, if and only if every trimmed item is non-empty and free of commas |
| BenefitEditor.CsvRoundTrip | apps/web/components/admin/admin-benefit-manager.tsx:1294-1299 | a list survives joining and splitting if and only if every item is non-empty, trimmed and free of commas |
| BenefitEditor.NumberRoundTrip | apps/web/components/admin/admin-benefit-manager.tsx:1249-1250 | a number shown in the form without an exponent reads back as itself |
| BenefitEditor.BuildBenefitDefinitions | apps/web/components/admin/admin-benefit-manager.tsx:1204-1267 | the loop builds every draft in order or reports the first problem |
| BenefitEditor.RefusedExactly | apps/web/components/admin/admin-benefit-manager.tsx:1204-1267 | the drafts build if and only if each has its texts in every language, a tier and positive numbers; otherwise the first that does not is reported, for a fault it has |
| BenefitCanonical.BuildsExactly | apps/web/components/admin/admin-benefit-manager.tsx:1188-1267 | the drafts of a saved configuration build if and only if each benefit still names a tier, and to which benefits |
| BenefitCanonical.FreshlyLoadedExactly | apps/web/components/admin/admin-benefit-manager.tsx:587-594 | a freshly loaded editor reports no change if and only if every benefit has tiers and every tier name, trimmed, is non-empty and free of commas |
| BenefitCanonical.FreshlyLoadedIsUnchanged | apps/web/components/admin/admin-benefit-manager.tsx:1188-1292 | such a configuration builds without problem from its drafts and has the same canonical form |
| BenefitCanonical.ChangeIsExact | apps/web/components/admin/admin-benefit-manager.tsx:1269-1292 | two configurations have one canonical form if and only if they hold the same entries, however ordered |
| BenefitCanonical.ReportedExactly | apps/web/components/admin/admin-benefit-manager.tsx:1269-1292 | no change is reported if and only if both sides have as many benefits and each is kept with its kind, numbers, translated texts, tiers and exclusions of limited benefits |
| BenefitCanonical.OrderDoesNotMatter | apps/web/components/admin/admin-benefit-manager.tsx:1269-1292 | the canonical form does not depend on the order of the benefits |
| BenefitCanonical.DistinctIdentitiesDetermine | apps/web/components/admin/admin-benefit-manager.tsx:1269-1292 | distinct identities suffice for that |
| BenefitCanonical.CommaReportsChange | apps/web/components/admin/admin-benefit-manager.tsx:1294-1299 | a configuration whose one benefit has the tier "A,B" builds, with two tiers, and is reported as changed |
| QueueAccess.AccessEndedExactly | apps/web/hooks/use-queue.ts:463-551 | the page says the access ended if and only if an answer said so and nothing since reopened it: no open admission, payment recovery, sign-in or security demand, or new entry |
| QueueAccess.ReentersOnce | apps/web/hooks/use-queue.ts:488-505 | between two entries the user starts, the entry after a closed admission is scheduled at most once |
| QueueAccess.AnswerShows | apps/web/hooks/use-queue.ts:463-535 | which answers show the line, the admission and its end, and when they let the user in or arm the timer for it |
| QueueAccess.WaitsInLine | apps/web/hooks/use-queue.ts:528-534 | after a waiting answer nobody is let in until an admission arrives or the user enters |
| QueueAccess.EntryFailureShows | apps/web/hooks/use-queue.ts:687-723 | trouble of the network or the server is retried quietly up to three times; any other failed entry shows the surface of its cause |
| QueueAccess.TroubleIsRetriedThrice | apps/web/hooks/use-queue.ts:702-723 | the fourth failure in a row shows the retry surface and arms nothing |
| QueueAccess.SessionFailureShows | apps/web/hooks/use-queue.ts:537-551 | trouble while checking the session changes nothing; a demand or a missing session takes the user out to its surface |
| QueueAccess.OpeningIsAwaited | apps/web/hooks/use-queue.ts:689-700 | before the opening the page shows the open time and enters again by itself |
| QueueAccess.EntryStartsAfresh | apps/web/hooks/use-queue.ts:639-661 | a user's entry leaves the state of a fresh page |
| QueueAccess.NoTimerIsLeft | apps/web/hooks/use-queue.ts:748-770 | turned off or left, no timer remains; turned off, it is back to loading |
| QueueHook.QueueHook.OnSnapshot | apps/web/hooks/use-queue.ts:463-535 | the surface, readiness and timers after a session answer |
| QueueHook.QueueHook.OnSessionError | apps/web/hooks/use-queue.ts:537-551 | a transient failure changes nothing, any other moves to its surface |
| QueueHook.QueueHook.Enter | apps/web/hooks/use-queue.ts:639-661 | a user's entry starts afresh, a background one only stops the timers |
| QueueHook.QueueHook.OnEntrySnapshot | apps/web/hooks/use-queue.ts:668-686 | an entry that answers a session resets the retries and applies it |
| QueueHook.QueueHook.OnOpenTime | apps/web/hooks/use-queue.ts:691-699 | shows the open time and enters again by then, unless the page was left |
| QueueHook.QueueHook.OnEntryError | apps/web/hooks/use-queue.ts:687-723 | a failed entry: not open, quiet retry while some are left, or its surface |
| QueueHook.QueueHook.OnDisabled | apps/web/hooks/use-queue.ts:748-755 | turning the queue off stops the timers and goes back to loading |
| QueueHook.QueueHook.OnTornDown | apps/web/hooks/use-queue.ts:765-770 | leaving the page stops the timers only |
| PoolCheckout.GivenBackOnce | apps/api/src/database/drizzle.provider.ts:151-180 | the pool's release runs for a checkout exactly once if its begin rejected or any holder's release reached its guard, and otherwise not, over every run |
| PoolCheckout.EndedIsGivenBack | apps/api/src/database/drizzle.provider.ts:157-177 | a rejected begin, or a release by its own holder, gives the client back exactly once, however often and late |
| PoolCheckout.LateReleaseIsExact | apps/api/src/database/drizzle.provider.ts:157-164 | a release by a holder leaves every other checkout alone if and only if its client is not out under another one; it ends that one otherwise |
| PoolCheckout.LateQueryIsExact | apps/api/src/database/drizzle.provider.ts:166-168 | a query by a holder leaves every other checkout alone if and only if it does not use up the first query of another one |
| PoolCheckout.FairExactly | apps/api/src/database/drizzle.provider.ts:123-135 | throughout a run checkouts are given back exactly when their begin rejects or their own holder releases them, if and only if no client is released by an earlier holder while it is out |
| PoolCheckout.LateReleaseEndsAnother | apps/api/src/database/drizzle.provider.ts:164 | and such a release does end a checkout that neither rejected nor was released by its holder |
| PoolCheckout.LateUseAfterRejectionIsHarmless | apps/api/src/database/drizzle.provider.ts:130-134 | after a rejected begin gave the client back, no later use of it by any of its holders changes anything |
| PoolCheckout.GivenBackAsFirstReached | apps/api/src/database/drizzle.provider.ts:157-164 | the first of the events that reach the guard decides whether the client goes back with an error |
| PoolCheckout.ClientsComeBackUnwrapped | apps/api/src/database/drizzle.provider.ts:160-164 | a client in the pool has its own query function, one that is out the wrapper and the guard of its checkout |
| PoolCheckout.OutUntilReached | apps/api/src/database/drizzle.provider.ts:123-135 | no client is lost: it is out exactly until its begin rejects or a release reaches its guard |
| PoolCheckout.RejectedBeginReturnsWithError | apps/api/src/database/drizzle.provider.ts:166-177 | only a begin that is the first statement and answers with a promise gives the client back on its own, and then with an error |
| PoolCheckout.CaughtExactly | apps/api/src/database/drizzle.provider.ts:166-177 | over every run, a rejection gives the client back if and only if the first query through the checkout's wrapper was a begin that answers with a promise, not settled since |
| PoolCheckout.FirstQueryExactly | apps/api/src/database/drizzle.provider.ts:155-168 | a query counts as the first of a checkout if and only if its wrapper was not called before, by whichever holder |
| PoolCheckout.BeginStatementExactly | apps/api/src/database/drizzle.provider.ts:114-121 | a statement counts as a begin if and only if it is white space, the word in any case, and then its end or no word character |
| GuardedPool.GuardedPool.GuardCheckout | apps/api/src/database/drizzle.provider.ts:151-180 | remembers the client's own query function and overwrites its query and release functions |
| GuardedPool.GuardedPool.ReleaseClosure | apps/api/src/database/drizzle.provider.ts:157-163 | the first call unwraps and returns the client, later ones do nothing |
| GuardedPool.GuardedPool.QueryClosure | apps/api/src/database/drizzle.provider.ts:166-172 | notes the first query, and a begin whose rejection is to be caught |
| GuardedPool.GuardedPool.ReleaseByHolder | apps/api/src/database/drizzle.provider.ts:164 | a holder reaches the release function its client has by now |
| GuardedPool.GuardedPool.QueryByHolder | apps/api/src/database/drizzle.provider.ts:166-177 | a holder reaches the query function its client has by now |
| GuardedPool.GuardedPool.OnBeginRejected | apps/api/src/database/drizzle.provider.ts:173-176 | returns the client with an error unless it went back already |

## Left out

- Seat locks: expiry of a hold on the server, other tabs and devices of the same user, the timer and its deadline, normalization of seat keys, requests the server applies after it answered, operations still in flight from an earlier mount, seats a snapshot names but the page cannot build, and toasts.
- Seat locks: a per-user limit over the whole showtime; a new lock waits only for the releases collected at its click.
- SeatLockSafety.DefiniteAnswersMatchExactly: assumes that the server carries out the releases of the showtime it is asked for; without that the leaked locks are stated by SeatLockSafety.LocksMatchSelection.
- CoalescedReads.EntriesAreTheAwaitedKeys: the map of entries is modelled on values, because each entry holds a batcher with its own callbacks; the batcher itself is a class.
- Seat events: leaving the page, resync timers and the seat-status request itself; the spelling of seat ids is a parameter.
- SeatUpdates.CopiesAreDropped: assumes what the server promises, one legacy copy of each v2 event other than a lock, in order and within the echo window.
- Session restore: HTTP, an empty string as an access token, and the moment between a settled restore and the reset of the shared promise.
- Token refresh: sharing one run between concurrent callers, and real timers; clock readings and waits are arbitrary.
- Benefit rights: lock timeouts, deadlocks, the operator's permission check, the audit row's content, timestamps and redemption columns; the order of the repair query, which only fixes the digest; running live draws and rollbacks.
- Benefit rights: concurrent transactions appear only where the code does not exclude them: ticket states and rights between the repair's query and its inserts are arbitrary.
- BenefitEditor.NumberRoundTrip: number texts other than decimal digits (signs, exponents, hexadecimal) are read by a parameter, and integers from 1e21 on are shown by one; the saved numbers are 32-bit columns (`apps/api/src/database/schema/ticket-benefits.ts:152-153`).
- BenefitCanonical.OrderDoesNotMatter: `localeCompare` and the default text order are any total orders; JSON text is represented by the structure it serializes.
- Base64Url.DecodeInvertsEncode: parsing the decoded bytes as JSON claims.
- Cidr.Ipv4InCidrIsInterval: recognizing dotted text (`isIP`) and splitting the CIDR text are not modelled; addresses are octets.
- Ipv6.ParsesText: texts with an embedded IPv4 tail or a zone, and `isIP` itself.
- ServerClock.RunStaysClose: times are whole milliseconds in samples.
- Queue: times, polling, the open-time cache and retry delays; the snapshot's display fields.
- Pool: which client the pool hands out, clients the pool closes on its own, callback checkouts, and the error listeners.
- Rendering, routing, query caching internals, administration pages, health checks and command-line handling.
