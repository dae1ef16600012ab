# Agora: a verified model of its durable core

Agora publishes dashboards: an owner uploads a package of files, publishes one revision of it, lets
chosen people view it, and may hand the dashboard to somebody else.  This project models the parts of it
that keep promises over time, and proves those promises for every input, every interleaving and every run
of the model.  Python blocks under `transaction.atomic` with row locks are single atomic steps; tables are
maps; time never goes back; digests and identifiers are uninterpreted values.

`dafny verify dfyconfig.toml` checks everything.

## Components

**Durable upload** (`UploadProtocol`, `UploadSafety`, `UploadTheorems`, `UploadCleaner`, `UploadDrain`, `UploadSuccess`,
`UploadService`).
The file tree and the database cannot commit together.  `UploadProtocol` is a transition system over both: 20 kinds of
step, among them every outcome of `write` and `delete`, lost responses and rollbacks; a crash is an
attempt that takes no further step.  `UploadSafety` is its inductive invariant.  `UploadTheorems` states
what all runs guarantee, `UploadCleaner` what can happen around a run of the expiry cleaner, `UploadDrain` what is left
after it, and `UploadSuccess` what an attempt can rely on until its reservations expire, so that it must succeed.
`UploadService.Deployment` is the imperative code of services.py and storage.py;
each of its methods extends a recorded trace of protocol steps, so every theorem about runs applies to it.

**Entitlements** (`Entitlements`, `EntitlementInvariant`, `Credentials`, `EntitlementRuns`, `CallEffects`,
`AccessRights`, `EntitlementService`).  Every service call on users, dashboards, revisions, grants, requests, transfers
and credentials is one step that either changes the rows or leaves them.  `EntitlementService.Portal` has
the calls as methods that assign fields one by one; its validity says that its rows are what the recorded
calls make of empty tables.

**Authorized-open analytics** (`Analytics`, `AnalyticsService`).  The rollups are compared with a fold over
a ghost history of all opens ever aggregated, purged ones included.

**Keyset pagination** (`Keyset`, `Pagination`, `PaginationTheorems`, `PageLinks`).  The boundary filter is built as a
tree of conditions and given a meaning; pages are the first rows of an ordered query with one sentinel.

**Upload validation** (`HtmlDocument`, `HtmlValidator`, `CommentTracker`, `Staging`) and **login throttle**
(`LoginThrottle`).

## Where the code does not keep the plain promise

- The commit never looks at `expires_at`, and the cleaner unlinks files inside a transaction that may
  roll back.  So an artifact keeps its bytes only if attempts commit before their reservations expire;
  `UploadTheorems.CommitSafeExactlyWhenTimely` shows that this condition is exact and
  `UploadTheorems.LateCommitLosesBytes` gives a complete failing run from an empty system.
- A preview credential is not revoked by archiving; it is current again once the dashboard is restored.
  `Credentials.PreviewLifetime` says exactly when a preview is current; `Credentials.PreviewSurvivesArchive`
  is the concrete case.
- The comment flag depends on how the text is cut into calls when an opening is directly followed by `>`
  or `->` (section 13.1.6 of the WHATWG HTML standard forbids such comments).
  `CommentTracker.SplitsAgreeExactlyWhenNonAbrupt` shows that the flag is independent of the cuts exactly
  when no opening is followed that way.
- The analytics checkpoint is the largest aggregated id, not a watermark
  (`Analytics.CheckpointIsNotAWatermark`), and a purge window can be blocked by rows that are not aggregated
  yet (`Analytics.BlockedExactlyWhen`, with a run in `AnalyticsService.UnaggregatedRowBlocks`); after a full
  drain it cannot (`Analytics.DrainUnblocks`).
- The way-back cursor of a page that deletions have emptied sits at the page's own boundary and passes over
  the row there, if it still exists; `PageLinks.WayBackOmitsExactly` says that this is the only case, in both
  directions, and `PageLinks.EmptiedPageRun` reaches it.  `CursorPage.with_urls` replaces the links of an
  empty page by the first page, so a reader who follows links misses nothing
  (`PageLinks.WayBackLinkOmitsNothing`); the gap concerns whoever uses the cursors themselves.
- Nineteen failures for each window that can have begun is the bound only while no window is running at the
  start; a running one adds up to five (`LoginThrottle.FailuresBoundedAnywhere`, attained in
  `LoginThrottle.RunningWindowAdds`).
- Nothing but a late collision report for a quarantined reservation can give the cleaner new rows for a cutoff
  (`UploadCleaner.OnlyLateCollisionsAppear`), because `_mark_reservation_collision` does not look at the flag;
  `UploadCleaner.LateCollisionDisturbs` is a run in which one does.

## Assumptions

- Only the exceptions named in storage.py occur between a link and the unlink that follows it.
- Reservation identifiers, transfer markers and all other new row identifiers are fresh; cursors cannot be
  forged: a text that verifies under a salt was signed under it.
- `Interfere` methods stand for other processes.  Their bodies do nothing, but callers may rely on their
  contracts only, and those allow any protocol steps that are not the caller's own and leave its memory alone.
- The constants `working` of `UploadService.Deployment` and `Staging.Stager` stand for an environment in which
  database transactions, file-system calls and temporary files do not fail and no response is lost.
- The key generator is a parameter, the sequence of the keys it will return; so is the dashboard's answer to the
  commit (`accepted`).
- Requests capture the authorization they have just created, so rows that appear during the analytics
  command were opened no earlier than its retention cutoff.

## Model

| member | source | states |
|---|---|---|
| UploadTheorems.CommittedArtifactsHaveTheirBytes | src/agora/core/services.py:80-209 | Over every schedule of attempts, cleaner transactions, write outcomes and crashes in which commits precede expiry, each committed artifact's final file holds exactly the bytes its size and digest describe |
| UploadTheorems.CommitSafeExactlyWhenTimely | src/agora/core/services.py:355-367 | An attempt ready to commit is safe from any one cleaner transaction at that instant if and only if none of its reservations has expired |
| UploadTheorems.LateCommitLosesBytes | src/agora/core/services.py:200-208 | A concrete ten-step run from an empty system: the cleaner unlinks, its transaction rolls back, the late commit leaves an artifact without a file |
| UploadTheorems.NoFileUntracked | src/agora/core/services.py:103-154 | In every reachable state each final or pending file was there from the start, belongs to an artifact, or is named by a reservation row |
| UploadTheorems.DeletesOnlyOwnBytes | src/agora/core/services.py:425-447 | At any point of every run, a step that removes a final file is a cleanup of the reservation whose own write linked it; the key has no artifact and did not exist before the system started |
| UploadTheorems.CollisionBytesSurvive | src/agora/core/services.py:115-120 | At any point of every run, the bytes under the final name that a write collides with outlast every later schedule unchanged, whether or not the collision was recorded |
| UploadTheorems.PendingCollisionSurvives | src/agora/core/storage.py:131-135 | At any point of every run, the bytes under the pending name that a write collides with outlast every later schedule if and only if no running write is using that name, and one can only if an artifact has taken the key |
| UploadTheorems.SettledFileSurvives | src/agora/core/services.py:187-194 | A file of an artifact, or one that was there before, is never changed or removed by any schedule |
| UploadTheorems.FilesFromBeforeSurvive | src/agora/core/storage.py:131-135 | Final and pending files that were there before the system started are never overwritten or removed, in any run |
| UploadTheorems.RunKeepsBookkeeping | src/agora/core/models.py:1606-1625 | Every run keeps reservation states, receipts, stages and files consistent with each other, timely or not |
| UploadSafety.StepKeepsBookkeeping | src/agora/core/storage.py:119-175 | Each kind of step, one by one, keeps that invariant |
| UploadSafety.CommitNames | src/agora/core/services.py:348-389 | The prepared items of an attempt name different keys and the commit writes for each key its own verified receipt |
| UploadService.Deployment.CreateCompleteRevision | src/agora/core/services.py:80-154 | When it returns, each payload has an artifact under a key of its own with the size and digest of its whole stream, and file contents that match if commits were timely. In a working environment, with true claims and an accepting dashboard, it returns unless one of its reservations expired before it was committed, or had a key that an artifact had when the row was inserted or a file had from the start, or eight keys in a row were taken. When it raises, every reservation it made has had its cleanup transaction; in a working environment that removes row and files, or leaves the row flagged |
| UploadService.Deployment.Write | src/agora/core/storage.py:119-175 | Each outcome of a write leaves the stage that outcome stands for; a receipt, returned or raised, describes exactly the chunks of the stream and meets the sender's claims |
| UploadService.Deployment.StreamAndVerify | src/agora/core/storage.py:289-317 | Succeeds only if the concatenated chunks have the claimed size and digest and the read-back agrees |
| UploadService.Deployment.ReserveStorageKey | src/agora/core/services.py:277-290 | Fewer than eight keys, each of them taken when it was tried, go before a key that no artifact had when asked and no row had when it was reserved; or nothing is added that the attempt knows of; in a working environment it gives up only after eight taken keys |
| UploadService.Deployment.StorePayloads | src/agora/core/services.py:103-143 | When it succeeds every payload is stored, recorded and described by its receipt; in a working environment with true claims it fails only for a spoilt reservation or eight taken keys |
| UploadService.Deployment.MarkReservationVerified | src/agora/core/services.py:293-304 | In a working environment it records the receipt if and only if the row is there with that key, unflagged, and reserved or already owned with that receipt |
| UploadSuccess.RowsStayInTime | src/agora/core/services.py:167-208 | In every reachable state the row of a running attempt is in place until it expires, and flagged only if its write ended in doubt, whatever cleaners and other attempts do |
| UploadSuccess.TakenOnlyAtInsert | src/agora/core/services.py:277-290 | In every reachable state, an artifact with the key of a running, unexpired reservation was there when its row was inserted: the gap between the two checks is the only way in |
| UploadSuccess.BytesStay | src/agora/core/storage.py:119-175 | What a running write has streamed stays in its pending file whatever others do, unless an artifact has the key |
| UploadService.Deployment.CommitRevisionMetadata | src/agora/core/services.py:330-407 | When acknowledged, the dashboard had accepted, every item was verified, unflagged and without an artifact, and all became artifacts with their receipts in one step; in a working environment these conditions are enough |
| UploadService.Deployment.CommittedArtifacts | src/agora/core/services.py:378-389 | The artifacts after a commit are the old ones and exactly one per prepared item |
| UploadService.Deployment.CleanupUnowned | src/agora/core/services.py:410-449 | Every reservation the attempt remembers gets its cleanup transaction, whatever other processes do meanwhile; one that works removes the row and the attempt's files, or only the row for an artifact or a collision, or leaves it flagged in doubt |
| UploadSuccess.AllGone | src/agora/core/services.py:410-449 | Once all reservations of an ended attempt are gone or flagged, each file it put in place and no artifact has is named by such a row |
| UploadService.Deployment.SelectExpired | src/agora/core/services.py:167-175 | Every candidate is expired and not both reserved and flagged; an expired row that is left out is both, or comes after `limit` candidates in order of expiry and id |
| UploadService.Deployment.CleanupExpiredReservations | src/agora/core/services.py:158-209 | Each turn is exactly one step of this cleaner on its row, if the row was there and expired when locked, and none otherwise, whatever others did; removed and retained count the turns with that result. If the deletes returned and nothing became actionable meanwhile, no selected row is actionable afterwards and no other has become so; if nobody touched an actionable row, all the others still are. With a working storage and database it does not raise; and if the limit covers the expired rows and no late collision is reported, every expired row left is reserved and flagged and no file is left of a reservation that was owned and expired, except an artifact's |
| UploadService.Deployment.RepeatCleanup | src/agora/core/services.py:158-209 | Over any series of runs with positive limits and anything in between, unless a transaction fails, a delete fails or a row becomes actionable, the actionable rows shrink by the sum of the limits down to none, so as many runs as rows are enough; with a working storage and database only the last of these can prevent it. As many runs as expired rows, without a late collision report, leave only reserved and flagged rows among the expired ones and no file of a reservation that was owned and expired, except an artifact's |
| UploadDrain.LinkedFilesAreNamed | src/agora/core/services.py:180-208 | In every reachable state a file that a write has put in place is an artifact's or is named by the row of that write's reservation |
| UploadDrain.NoOrphanRemains | src/agora/core/services.py:158-209 | Once every expired row is reserved and flagged, no file is left of a reservation that was owned and expired at an earlier moment, except an artifact's |
| UploadCleaner.TurnProcesses | src/agora/core/services.py:180-208 | After the step of a turn that committed, and whose delete returned if it called it, its row is not actionable and no other has changed |
| UploadCleaner.OnlyLateCollisionsAppear | src/agora/core/services.py:307-317 | A step makes a row actionable for a given cutoff if and only if it is a late collision report for an expired reservation that a cleaner had quarantined |
| UploadCleaner.LateCollisionDisturbs | src/agora/core/services.py:307-317 | A run from an empty database that ends in such a report: nothing is actionable before it, one row after it |
| UploadCleaner.TurnIsQuiet | src/agora/core/services.py:180-187 | However many steps of attempts, other cleaners and the clock come before a lock: if none of them is a late collision report where it is taken, nothing becomes actionable |
| UploadCleaner.LeftOver | src/agora/core/services.py:167-175 | A selection leaves exactly the actionable rows beyond the limit, and quarantined rows take no place in it |
| Credentials.CredentialLifetime | src/agora/rendering/authorization.py:238-280 | A current credential is current after a run if and only if no call of the run invalidated it, through transfers to and fro, regrants and republications; previews need runs without restores |
| Credentials.CurrentExactlyUntilInvalidated | src/agora/rendering/authorization.py:61-280 | A credential issued at any point of any run is current at a later point if and only if it was issued with its expiry ahead and no call since invalidated it; for previews, in runs without restores |
| Credentials.PreviewCurrentExactlyWhen | src/agora/rendering/authorization.py:238-280 | The same for every run, restores included, and previews: alive since issue, and the dashboard neither archived nor deleted now |
| Credentials.PreviewLifetime | src/agora/rendering/authorization.py:251-259 | For every run, restores included: a preview is current at the end if and only if nothing killed it and its dashboard is then neither archived nor deleted |
| Credentials.CurrentUntilInvalidated | src/agora/rendering/authorization.py:238-280 | One call ends a current credential exactly when it is expiry, revocation, an account toggle or reset of its user, a publication change (viewer), a transfer (owner-bound) or the end of its grant (grant-bound) |
| Credentials.NeverRevives | src/agora/rendering/authorization.py:238-280 | A credential that is not current never becomes current again |
| Credentials.PreviewSurvivesArchive | src/agora/core/models.py:416-441 | The exception in a run from empty tables: archive ends a preview, restore makes it current again |
| Credentials.IssuedIsCurrent | src/agora/rendering/authorization.py:61-147 | A preview or view just issued is current if and only if its expiry lies ahead |
| Credentials.IssuedViewCanSourceOpen | src/agora/core/analytics.py:340-367 | Whoever may view can have the open captured: the capture inside issuing a view never refuses |
| EntitlementRuns.HeadNeverReturns | src/agora/core/enhancements.py:377-401 | The transfer head of a dashboard is the same after a run if and only if the run transferred it zero times |
| EntitlementRuns.ConfirmationBinds | src/agora/core/enhancements.py:319-323 | At any two points of any run: a confirmation bound to the head shown at the first succeeds at the second only if no transfer happened in between |
| EntitlementRuns.TransfersFormOneChain | src/agora/core/models.py:514-527 | In every reachable state the markers of a dashboard form one chain without repeats, each starting from the previous target, with the head leading to the owner |
| EntitlementRuns.TransitionsAllowed | src/agora/core/models.py:758-808 | In every reachable state, whatever a service writes to an existing request passes the model's transition guard: resolutions, reopenings, and the approval inside a transfer |
| EntitlementRuns.AccessStaysConsistent | src/agora/core/migrations/0011_project_viewer_epochs.py:11-17 | At most one open grant per dashboard and viewer, and the owner never has an open grant or a pending request, in every reachable state |
| EntitlementRuns.ClosedGrantStaysClosed | src/agora/core/models.py:1017-1031 | A closed grant is the same row after any run |
| EntitlementRuns.ReopenedStrictlyLater | src/agora/core/enhancements.py:193-199 | Each reopening of a request moves its request time strictly forward, counted over whole runs |
| EntitlementRuns.PublicationHistory | src/agora/core/models.py:380-414 | The publication version grows by the number of publications in the run, the first publication time is set once, the last never goes back |
| EntitlementRuns.LifecycleStaysConsistent | src/agora/core/services.py:369-398 | Published exactly when a locked revision of the dashboard is pinned; revision numbers are exactly 1..n and latest is n, in every reachable state |
| EntitlementRuns.SeenWithinPublished | src/agora/core/analytics.py:370-402 | No viewer's seen version passes the dashboard's |
| EntitlementRuns.SeenNeverFalls | src/agora/core/analytics.py:393-401 | Seen version and last view time never fall over any run |
| EntitlementInvariant.RunKeepsInv | src/agora/core/models.py:292-330 | The conjunction of all row invariants survives every run of calls |
| EntitlementService.Portal.GrantProjectViewer | src/agora/core/access.py:46-98 | When it succeeds the target holds an open grant, given by the actor, and nothing else changed |
| CallEffects.RevocationEndsViews | src/agora/core/access.py:101-130 | A revocation ends, now and after any later calls, every view its holder was ever issued of the dashboard: by this grant, an earlier one or as an earlier owner, even if access is granted again |
| EntitlementService.Portal.RequestDashboardAccess | src/agora/core/enhancements.py:148-219 | The one row per requester is created, returned while pending, or reopened |
| EntitlementService.Portal.ResolveDashboardAccessRequest | src/agora/core/enhancements.py:222-292 | A pending request is resolved by the right actor; after an approval the requester holds an open grant, and any other resolution leaves the grants as they were |
| EntitlementService.Portal.TransferDashboardOwnership | src/agora/core/enhancements.py:295-402 | When it succeeds the incoming user is the owner, the new marker from actor to incoming is the head, the incoming user's grant is closed and the pending request approved; otherwise nothing changes |
| AccessRights.OwnerIsLastIncoming | src/agora/core/enhancements.py:366-380 | After any run the owner is the incoming user of the last transfer carried out, or the creator if there was none |
| AccessRights.TransferHandsOver | src/agora/core/enhancements.py:295-402 | From a transfer until the next one, an archival or a deletion, every owner's call of anybody else is refused, and the incoming user may publish and share while active |
| AccessRights.AccessGivenIsAccess | src/agora/core/enhancements.py:269-276 | From a grant or an approval until that grant is revoked or the dashboard is transferred to its viewer, an active viewer can be issued a view whenever the dashboard is published |
| AccessRights.OpenUntilClosed | src/agora/core/access.py:101-130 | An open grant is open after a run if and only if no call of the run revoked it or transferred the dashboard to its viewer |
| AccessRights.NobodyElseGains | src/agora/core/access.py:46-98 | A call opens a grant only if it is a grant or an approval, and then for its target or requester |
| AccessRights.AskingAccepted | src/agora/core/enhancements.py:148-219 | An active user who neither owns a published dashboard nor has an open grant of it can always ask for access |
| CallEffects.PublicationChangeEndsViews | src/agora/core/enhancements.py:405-501 | Publishing, also of the same revision again, and unpublishing end every view issued before, now and after any later calls |
| CallEffects.VersionCountsPublications | src/agora/core/enhancements.py:405-481 | After any run the version is the number of publications since the dashboard was created |
| CallEffects.TransferEndsOwnerCredentials | src/agora/core/enhancements.py:295-402 | A transfer ends every preview and owner view issued before it, for good, even if the dashboard comes back to that owner |
| CallEffects.FreshnessIsInert | src/agora/core/enhancements.py:526-563 | After any later calls all rows are as if freshness had never been confirmed, except how fresh dashboards are said to be; no credential changes its currency |
| EntitlementService.Portal.CommitRevision | src/agora/core/services.py:337-398 | The next number after the latest revision, locked, becomes latest |
| CallEffects.AccountChangeEndsCredentials | src/agora/core/authentication.py:186-197 | A reset, disabling or enabling ends every credential its user holds, now and after any later calls |
| CallEffects.IssuingDisturbsNobody | src/agora/rendering/authorization.py:61-147 | Issuing a preview or view makes no other credential current and ends none |
| EntitlementService.Portal.IssuePublishedView | src/agora/rendering/authorization.py:107-147 | An owner or holder of an open grant gets a view of the pinned revision, and its open advances the viewer state |
| CallEffects.RevokedOnce | src/agora/rendering/authorization.py:180-194 | A revoked credential is never current again, and revoking it again after any later calls changes nothing |
| AnalyticsService.Pipeline.CaptureAuthorizedOpen | src/agora/core/analytics.py:60-103 | One row per authorization that may source an open, and the unique index never has to refuse |
| AnalyticsService.Pipeline.AggregateAuthorizedOpens | src/agora/core/analytics.py:106-233 | Exactly the oldest window of pending rows joins the history, all three rollups equal the fold over it, the checkpoint is its largest id; a short batch leaves nothing pending |
| AnalyticsService.Pipeline.PurgeAuthorizedOpens | src/agora/core/analytics.py:236-270 | Removes exactly the aggregated rows of the expired window; rollups and history are untouched |
| AnalyticsService.Pipeline.GroupOpens | src/agora/core/analytics.py:138-144 | The grouping loop splits a batch by day, viewer and dashboard as the fold does |
| AnalyticsService.Pipeline.Handle | src/agora/core/management/commands/process_authorized_open_analytics.py:37-85 | Its two totals are the opens it counted and those it purged itself, by its own record, which others do not touch; something may remain exactly when all its batches were full; if aggregation is reported complete, every open present at its start and up to its captured time is counted; if both phases are, no row older than the retention cutoff is left, with other transactions in between |
| Analytics.TotalsAgree | src/agora/core/analytics.py:146-219 | For each dashboard the daily counts, the viewer counts and the snapshot have the same total |
| Analytics.CountsMean | src/agora/core/analytics.py:146-219 | The counts are the numbers of aggregated opens of the dashboard between two midnights, by one viewer, and altogether |
| Analytics.CountedOnce | src/agora/core/analytics.py:80-96 | No authorization occurs twice in the history |
| Analytics.ExtremesMean | src/agora/core/analytics.py:163-194 | First, last and highest id of a summary bound its opens and are attained by some of them |
| Analytics.RemovableWhenAggregated | src/agora/core/analytics.py:258-266 | A row is removable if and only if it is aggregated: the id test against the checkpoint never excludes one |
| Analytics.DrainUnblocks | src/agora/core/analytics.py:253-266 | After a full drain every row of the purge window can be removed |
| Analytics.BlockedExactlyWhen | src/agora/core/analytics.py:253-266 | A purge removes nothing while a removable row waits if and only if the oldest `limit` expired rows are all unaggregated and an aggregated one lies behind them |
| AnalyticsService.UnaggregatedRowBlocks | src/agora/core/analytics.py:236-270 | A run of capture, aggregation, capture and purge that leads there, for any two authorizations: an open that was opened earlier is captured after a later one has been aggregated |
| AnalyticsService.BlockedPurge | src/agora/core/analytics.py:236-270 | While the window is blocked, every purge removes nothing |
| Analytics.CheckpointIsNotAWatermark | src/agora/core/analytics.py:116-131 | A first batch can leave an unaggregated row below the checkpoint |
| Keyset.BoundaryFilter | src/agora/core/pagination.py:206-219 | For any mix of directions the condition selects exactly the rows strictly past the boundary in lexicographic order; it is empty only without columns |
| Keyset.OrderingSorts | src/agora/core/pagination.py:222-223 | The forward ordering is that order and the reversed one its exact inverse |
| Keyset.PrecedesTotal | src/agora/core/pagination.py:206-223 | Different keys are comparable, so with unique keys a page has one possible content |
| Pagination.PaginateKeyset | src/agora/core/pagination.py:108-203 | Which arguments raise which error; the accepted page sizes; otherwise the items are the first of the ordered rows past the boundary and each cursor is offered exactly when its flag holds |
| Pagination.CursorRoundTrip | src/agora/core/pagination.py:239-288 | An issued cursor comes back as issued exactly under its own namespace and context digest, fresh and short enough; otherwise it is invalid |
| Pagination.ModelBoundary | src/agora/core/pagination.py:226-236 | Collects the key of a row column by column |
| PaginationTheorems.StayingRowsReadExactlyOnce | src/agora/core/pagination.py:132-203 | Following next cursors to the end while rows come and go, each row that stayed with its key is met exactly once and all items are strictly in order |
| PaginationTheorems.PagesConcatenate | src/agora/core/pagination.py:132-203 | On a table that does not change the pages concatenate to the whole sorted table |
| PaginationTheorems.PageShape | src/agora/core/pagination.py:153-175 | A page is a stretch of the sorted table; next and previous are offered exactly when rows lie beyond, and point at its edges |
| PaginationTheorems.TurningBackReturns | src/agora/core/pagination.py:146-203 | At every point of every walk, next then previous and previous then next return to the same items and the same cursors |
| PaginationTheorems.WayBackIsOffered | src/agora/core/pagination.py:159-164 | After a step the way back is always offered |
| PageLinks.WayBackOmitsExactly | src/agora/core/pagination.py:159-175 | On any table, from any boundary and in either direction, the rows beyond a page, those on it and those its way-back cursor leads to never overlap, and they are the whole table if and only if the page is not empty or no row is at the boundary; otherwise exactly that row is left out |
| PageLinks.WayBackLinkOmitsNothing | src/agora/core/pagination.py:71-105 | The links of a page, which lead to the first page when it is empty, leave no row out |
| PageLinks.TurningBackOnEmptyPage | src/agora/core/pagination.py:171-175 | Reading on to the end from an empty previous page: by cursor everything but the row at the boundary, by link everything |
| PageLinks.EmptiedPageRun | src/agora/core/pagination.py:95-100 | A concrete run in both directions: page, deletion, emptied page, row passed over |
| HtmlValidator.Validate | src/agora/uploads.py:1082-1176 | Raises no issue if and only if the events are those of one html-rooted tree that meets the head, body, void, forbidden, text, nesting, token and doctype rules |
| HtmlValidator.AcceptsExactlyDocuments | src/agora/uploads.py:1089-1176 | The same for the stack recogniser as a state machine, in both directions |
| HtmlDocument.DocumentTokens | src/agora/uploads.py:1383-1386 | The tokens counted against the limit are two for each element and one for each void element and each doctype of the tree |
| HtmlValidator.ParseDocument | src/agora/uploads.py:1095-1102 | From an accepted event sequence a document with exactly those events can be rebuilt |
| CommentTracker.SplitsAgreeExactlyWhenNonAbrupt | src/agora/uploads.py:1364-1381 | Every way of cutting every beginning of a text into calls gives the same flag if and only if no opening is directly followed by `>` or `->` |
| CommentTracker.ChunksReadAsWhole | src/agora/uploads.py:1364-1381 | Then flag and tail are those of one left-to-right reading of the whole text |
| CommentTracker.TwoCallsDiffer | src/agora/uploads.py:1365-1371 | Cutting right after an opening with an abrupt end changes the flag |
| CommentTracker.Tracker.Feed | src/agora/uploads.py:1364-1381 | The search loop computes the reading of tail and data |
| Staging.Stager.StageUpload | src/agora/uploads.py:527-555 | With a working storage it succeeds if and only if the parts form a manifest and are stageable one after the other; otherwise it can also fail with STAGING_ERROR, and only then; on success files hold the received bytes, sizes and total are theirs and within limits, and the references are those its chunks and parts name within the package; any failure leaves no file open |
| Staging.Stager.StageEntry | src/agora/uploads.py:713-809 | One more open file with the concatenated chunks, or none |
| Staging.Stager.WriteAll | src/agora/uploads.py:864-875 | The whole chunk is stored however little each write takes |
| Staging.BuildManifest | src/agora/uploads.py:566-605 | Succeeds if and only if there are at most `max_files` well-formed parts with distinct keys, exactly one of them HTML |
| Staging.TotalWithin | src/agora/uploads.py:750-755 | Stageable entries keep the total and each size within the limits |
| LoginThrottle.FailuresBounded | src/agora/core/authentication.py:66-98 | While no window of the bucket is running and without a login on it, the failures evaluated within D are at most 19 in each full window, and in the last one five and one per lockout; so at most 19 * (D / 900 s + 1), whatever other buckets are charged |
| LoginThrottle.FailuresBoundedAnywhere | src/agora/core/authentication.py:66-98 | From any point of any run from an empty table: the bound with a window already running, at most five more than without, and at most 19 * (D / 900 s + 2) |
| LoginThrottle.RunningWindowAdds | src/agora/core/authentication.py:259-293 | A run that attains it: 24 evaluated failures within 840 s and a microsecond, where 19 are possible without a running window |
| LoginThrottle.AtMostNineteen | src/agora/core/authentication.py:287-293 | At most 19 in one window |
| LoginThrottle.TallyOf | src/agora/core/authentication.py:259-293 | The window, count and lockout of a bucket follow its evaluated failures over any run without a login on it, from any state of the bucket |
| LoginThrottle.NineteenReached | src/agora/core/authentication.py:259-293 | The bound is attained |
| LoginThrottle.Throttle.AuthenticateLogin | src/agora/core/authentication.py:66-98 | It logs in if and only if the backend accepts a well-formed attempt of allowed length and no bucket of it is still blocked, and then its buckets are gone; it is refused if and only if one of its buckets is still blocked; otherwise it has failed and its buckets are charged; other buckets are untouched |
| LoginThrottle.FourFailuresAfterLogin | src/agora/core/authentication.py:66-98 | After a login on a bucket its next four failures, whatever else happens, leave it open |
| LoginThrottle.FifthFailureAfterLogin | src/agora/core/authentication.py:287-293 | The fifth, within the window that began after the login, locks it for a minute or until the window ends |

## Left out

- UploadService.Deployment.CommitRevisionMetadata: whether dashboard and owner accept the revision is a parameter; `EntitlementService.Portal.CommitRevision` has those conditions and the numbering.
- UploadService.Deployment.CleanupExpiredReservations: its `now` parameter is taken to be at most the present time.
- HtmlValidator.Validate: the tokenizer, the attribute checks and the script and style inspection are verdicts carried by the events; a failed attribute check raises HTML_MALFORMED for whichever issue the code names; leftover raw text and the comment flag at `close` are not part of its verdict.
- Staging.Stager.StageUpload: decoding, CSV, binary-signature and content checks are verdicts carried by the chunks; digests are not computed.
- AnalyticsService.Pipeline.CaptureAuthorizedOpen: reads the entitlement rows it is given; the link to the run that produced them is only through `Entitlements.CanSourceOpen`.
- Pagination.CursorRoundTrip: value text formats and signatures are abstract.
- Directory creation, symbolic-link checks, path resolution and fsync: only the outcomes of `write` and `delete` remain.
- Payload validation and media types before the first reservation, revision notes, messages and audit events.
- Favorites, tags, read-only listings, short-text normalisation, configuration, logging, views, forms and settings.
- Bootstrap of the first administrator, and the SOEID canonicalisation: accounts appear by `ProvisionUser`.
- CSS and script heuristics over 4096-character tails.
