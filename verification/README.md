# Verification of the per-account synchronisation protocol

OnlineClipboard keeps the encrypted clipboard history of an account on a PostgreSQL-backed server.
Devices create, trash, restore and purge clips; every change takes the next number of the account's
event log; each device follows that log by a cursor, or scans a snapshot when it has none. This
project models the server's transactions, the Windows engine that follows them, sign-in sessions, the
encodings that idempotency and encryption contexts rest on, and the sliding-window gate, and proves
what they promise.

`dafny verify dfyconfig.toml` checks everything with Dafny 4.11.

## How the model is laid out

| file | what it is |
|---|---|
| `Domain` | rows, requests, answers, error codes, periods |
| `Ordered` | ORDER BY over finite sets of numbers |
| `Accounts` | each transaction as a function from committed state to committed state |
| `EventLog` | the event history as a program: replaying it yields every clip's life |
| `Invariant`, `Evolution` | what every transaction keeps, and what no later state takes back |
| `Runs` | arbitrary runs of all transactions, jobs and the clock |
| `History`, `Retention` | the promises over every run |
| `Answers` | what every request is answered, read off the log: receipts, rows and refusals after any run |
| `Expiry`, `Jobs` | the purge batch, and the loop over all users |
| `Server` | `class Store`: the transactions statement by statement, each proved equal to its function |
| `Schedules` | what other devices and jobs do between a client's calls, and which cursors retention spares meanwhile |
| `Paging`, `SnapshotScan`, `Listing` | the two paged walks with other transactions before every page |
| `Replica`, `SyncEngine` | what a cache owes the server; `class Engine`: the client's loops of API calls |
| `Outbox` | uploads that overlap each other and the pull, with lost, late and doubled messages |
| `Commits` | overlapping transactions split into lock, number, write, commit, and retention beside them |
| `Sessions` | sign-in, refresh rotation, revocation: overlapping statements, and `class AuthStore` |
| `Tokens` | how long the two tokens of a session work, and what ends them for good |
| `Canon`, `Base64`, `ClipCrypto`, `Vectors` | canonical encodings, context strings, recovery code, published examples |
| `Limiter` | the sliding-window gate |

Where the source updates state, a class does so here and its methods are proved against a
specification function; the theorems are about those functions, over all runs. A client method meets
other devices through `class Api`: before every call an arbitrary sequence of transactions commits, and
request or response may be lost. The schedule is finite and arbitrary, so termination is proved too. A
schedule is gentle if nobody starts a new epoch and every retention in it keeps at least as much history as
the schedule takes time; a cursor is secured if no retention of the schedule reaches an event after it. A
rebuild that is forced by anything else may meet the next one, so claims about what a rebuild leaves are made
for gentle schedules, where the base of its scan is secured.

## Assumptions

- One clock that never goes back, read once per transaction. The trash statement reads it twice and the
  row constraint wants exactly 168 hours between the readings; `skewed` says that they differ, and then
  the transaction aborts.
- SHA-256 is injective on the inputs that occur, so a digest is its own input. UUIDs, tokens, families
  and session ids that are drawn at random do not repeat.
- A client can decrypt its own account's clips. Epoch and cursor are stored in one step.
- For agreement of the cache, `EnqueueLocal` does not overlap `RunOnce`; module `Outbox` drops this.
- `Changes` reads counters and rows from one consistent state; `SplitReadIsExactIff` says what the two
  separate reads of the code guarantee.

## Where code and documentation differ

- `docs/04-sync-protocol.md:115` lets a rebuild delete cached entries it did not find. The engine fills a
  set of seen ids and never uses it, so an entry survives a rebuild if its clip was purged before the scan began,
  or is expired trash, which no scan returns, and is cached as something else. `Replica.VerdictHolds` bounds what
  is left by these entries from both sides. If meanwhile no time passes, nothing is purged and the clip with the
  nil UUID is not mutated, so in particular on a quiet server, the two sides meet in an if-and-only-if that can
  be checked when the scan begins (`SyncEngine.ComeBack`); otherwise the outcome also depends on what expires or
  is purged in between (`Replica.MeanwhileDecides`). `StaleAfterLongAbsence` and `ActiveAfterLongAbsence` give a run for each kind.
- `docs/04-sync-protocol.md:104` calls `min_available_seq` the earliest number that can still be pulled.
  If the log has been emptied and a writer commits while the retention update waits for the row, it
  overshoots (`OverlapOvershoots`), and the next retention moves it back; `UpdateIsExactIff` gives the
  exact condition. No event is skipped by any cursor in either case.
- `docs/04-sync-protocol.md:100` promises one consistent read per page of changes; the code makes two in
  READ COMMITTED. If retention passes the cursor between them a page has a gap (`SplitReadIsExactIff`,
  `SplitReadCanGap`).
- The snapshot scan starts above the nil UUID, so a clip with that id is never returned
  (`ScanReturnsOnce`); the engine learns of it only from later events.
- A receipt that has expired but is not yet cleaned up still holds its primary key, so reusing its
  operation id aborts (`MutationOutcome` says exactly when, `ExpiredReceiptBlocks` gives a run).
- A flush that overlaps the pull writes a cached clip back at version 1 as it read it before
  (`RewriteAgreesIff`, `OverlapRevertsVersion`).
- A refresh checks its 30-day deadline before it writes; a transaction that stalls in between issues an
  access token that outlives the bound by exactly the time it was late (`SessionsEnd`, `LateRotationOutlives`).
- The expiry loop stops after a round of fewer than fifty users, so an account with more than one batch
  of expired clips keeps the rest until the next tick: `Jobs.Job.PurgeExpired` says exactly when something is
  left, `OneIsLeft` gives the account.

## Model

| member | source | states |
|---|---|---|
| Server.Store.CreateClip | server/internal/store/clips.go:23-115 | the statements from the device check to the commit leave the state and answer that the specification gives, at every exit |
| Server.Store.GetClip | server/internal/store/clips.go:122-158 | the row, or the expiry, the tombstone or not-found, as committed |
| Server.Store.ListClips | server/internal/store/clips.go:204-247 | the newest matching rows in falling (created_seq, id) order, with a token exactly when more follow |
| Server.Store.NewestRows | server/internal/store/clips.go:208-247 | the row loop: the newest rows up to the limit, and whether one more follows |
| Server.Store.MutateClip | server/internal/store/clips.go:280-328 | receipt replay, hash conflict, application and receipt insertion commit together or not at all |
| Server.Store.TxApply | server/internal/store/clips.go:330-394 | which of the refusals or which write a mutation comes to; receipts and clock stay |
| Server.Store.TxBump | server/internal/store/clips.go:396-431 | one new number, the row's new status, version and times, one event |
| Server.Store.TxPurge | server/internal/store/clips.go:433-457 | row gone, tombstone set, quota given back, one event |
| Server.Store.Changes | server/internal/store/sync.go:15-90 | the page or the refusal for an epoch and cursor, with the default limit |
| Server.Store.EventRows | server/internal/store/sync.go:45-65 | the row loop collects the retained events after the cursor, in order, up to the limit |
| Server.Store.BeginSnapshot | server/internal/store/sync.go:92-122 | a session at the present next_seq for 15 minutes under an unused token |
| Server.Store.SnapshotPage | server/internal/store/sync.go:124-219 | foreign device, changed epoch and expiry are refused; otherwise the page after the token |
| Server.Store.PageRows | server/internal/store/sync.go:176-204 | visible rows in id order, one row beyond the limit deciding the next token |
| Server.Store.PurgeUserExpired | server/internal/store/jobs.go:75-129 | one batch is purged and counted |
| Server.Store.RetainEvents | server/internal/store/jobs.go:131-153 | old events deleted and the minimum recomputed, or next_seq + 1 when none is left |
| Server.Store.CleanupReceipts | server/internal/store/jobs.go:155-158 | a receipt goes exactly when it can no longer be replayed; living ones and every other table stay |
| Server.Store.CleanupSnapshots | server/internal/store/jobs.go:159-161 | a scan session goes exactly when its pages would be refused as expired; everything else stays |
| Server.OrderByExpiry | server/internal/store/jobs.go:84-89 | the first n rows in (expires_at, id) order |
| Invariant.InsertKeepsInv | server/internal/store/clips.go:73-107 | a create keeps the log, retention, rows, replay and quota invariants |
| Invariant.BumpKeepsInv | server/internal/store/clips.go:396-431 | so do trash and restore |
| Invariant.BumpKeepsQuota | server/internal/store/clips.go:396-422 | trash and restore leave both quota counters unchanged |
| Invariant.PurgeKeepsInv | server/internal/store/clips.go:433-457 | so does a purge, by a user or the job |
| Runs.RetainKeepsSuffix | server/internal/store/jobs.go:131-153 | retention deletes a prefix: what stays is contiguous up to next_seq and the minimum does not fall |
| Runs.StepFollows | server/migrations/000001_initial.sql:62-138 | every transaction, job and tick keeps the invariant and takes back nothing that later states promise to keep |
| Runs.RunFollows | server/internal/store/clips.go:280-328 | the same over every run |
| Runs.RunKeepsEra | server/internal/store/jobs.go:131-153 | over any run only a new epoch changes the epoch, only retention the earliest event, and only ticks the clock |
| Runs.ReachableIsOk | server/migrations/000001_initial.sql:62-138 | the invariant holds in every state reachable from a new account |
| EventLog.LifeSummarises | server/internal/store/clips.go:396-457 | a replayed life's version counts the clip's events, its last_seq names the newest, and no later event is the clip's |
| EventLog.VersionsCount | server/internal/store/clips.go:101-107 | the versions of a clip are 1, 2, 3, ... in log order, and exactly version 1 is its creation |
| EventLog.VersionUsedOnce | server/internal/store/clips.go:401-421 | of two events of one clip the later has the higher version |
| History.RowIsItsEvents | server/internal/store/clips.go:83-107 | in every reachable state replaying the whole log gives exactly every clip's status, version, last_seq and expiry, or its final version and number |
| History.OneEventPerVersion | server/internal/store/clips.go:354-393 | no two events of a run share clip and version, and no clip is created twice |
| History.QuotaConserved | server/internal/store/clips.go:73-87 | in every reachable state item_count counts the rows, ciphertext_bytes sums them, both within the maxima |
| History.CreateOutcome | server/internal/store/clips.go:73-115 | a new id is accepted if and only if it fits both quotas and the row constraints; one event, one new life, nothing else touched |
| History.MutationOutcome | server/internal/store/clips.go:330-457 | for any operation id: success is the replay of a living receipt, which changes nothing, or an allowed effect under an unused id, as one legal event that the receipt tells with the new status and the times of the row; nothing else in the account moves; an expired receipt still in the table aborts what would be allowed |
| History.ExpiredReceiptBlocks | server/internal/store/clips.go:291-322 | from any state with an active clip: 30 days after a trash its operation id aborts an allowed purge that any unused id completes |
| History.RetainedSuffix | server/internal/store/jobs.go:131-153 | after any run the retained numbers are exactly min_available_seq .. next_seq, and the minimum never falls |
| History.PageHasNoGap | server/internal/store/sync.go:34-81 | a page is accepted if and only if epoch and cursor are valid and not expired, each refusal has its own condition, and a page is exactly the log after the cursor; more to come means the full limit was returned |
| Retention.AbsenceWithinRetention | server/internal/store/jobs.go:131-153 | a device that was up to date and returns within the retention period is never refused and gets exactly the events it missed |
| Retention.RunKeepsSecure | server/internal/store/jobs.go:131-153 | while retention keeps at least `period` days, no run deletes an event after a number whose later events are all young enough for the time the run takes |
| Retention.RetainIsExact | server/internal/store/jobs.go:131-153 | exactly the events older than the configured days go, thirty by default, and the minimum is the earliest left or next_seq + 1 |
| Schedules.HeadIsSecureFor | server/internal/store/jobs.go:131-153 | a cursor at the newest event is accepted throughout any schedule without a new epoch whose retentions keep as much as the schedule takes |
| Schedules.AcceptedIsSecureFor | server/internal/store/sync.go:34-42 | so is any accepted cursor, however old, throughout a schedule without retention |
| History.SplitReadIsExactIff | server/internal/store/sync.go:30-66 | with the two reads apart, the page is the gap-free one if and only if retention has not passed the cursor in between or nothing was due |
| Retention.SplitReadCanGap | server/internal/store/sync.go:30-66 | from any state with an event after the cursor, silence for a month and one retention between the two reads make the gap |
| History.MutationTakesEffectOnce | server/internal/store/clips.go:354-358 | after any run, a second request for a consumed version changes nothing, whatever its key, kind or the age of the receipt |
| History.ReplayReturnsReceipt | server/internal/store/clips.go:291-327 | while the receipt lives, in any later state, the same request returns it and changes nothing |
| History.CreateIsRemembered | server/internal/store/clips.go:53-68 | after any run a registered id is answered from the registry regardless of quota, and the state stays |
| History.CreateIsIdempotent | server/internal/store/clips.go:53-68 | after any run the same envelope gets the original receipt, and a different one under its id is refused |
| History.NoResurrection | server/internal/store/clips.go:330-349 | a purged id is never a row again in any run; reads and mutations report the unchanged tombstone |
| History.ExpiredTrashIsOneWay | server/internal/store/clips.go:125-134 | in every later state expired trash is the same row or purged, and neither read, list nor scan shows it |
| Answers.ReachableIsTrue | server/internal/store/clips.go:23-457 | in every reachable state rows, registrations and stored receipts tell what the log says: who, which version, when, until when; every row holds the registered envelope, within the table's constraints |
| Answers.MutationAnswers | server/internal/store/clips.go:280-457 | success, new or replayed, is a receipt of one event of this clip, which brought it from the expected version to the next as asked; a new request succeeds if and only if the clip's newest event lets it; every refusal quotes that event |
| Answers.CreateAnswers | server/internal/store/clips.go:23-115 | success means an enrolled, unrevoked device in its own name and the account's vault, and a receipt of the one creation; each refusal has exactly its own condition and changes nothing |
| Answers.RevokedDeviceCreatesNothing | server/internal/store/clips.go:47-51 | from its revocation on a device creates nothing in any run, and is told so |
| Answers.ReadAnswers | server/internal/store/clips.go:122-158 | a read answers the row as it is, or the expiry, the purge or the absence as the log has it |
| Answers.CreatedStaysReadable | server/internal/store/clips.go:122-191 | from an accepted create through any run the clip is answered exactly while it is neither purged nor expired trash, with the very envelope that was sent |
| Answers.AcceptedIsStored | server/internal/store/clips.go:53-107 | whenever a create succeeds, retries included, the row is this envelope in every later state that has it |
| Answers.TrashLastsAWeek | server/internal/store/clips.go:401-413 | trash is answered and can be restored for exactly 168 hours |
| Answers.KeyLivesThirtyDays | server/internal/store/clips.go:291-322 | an operation id answers its request again for exactly thirty days |
| Answers.SessionAnswers | server/internal/store/sync.go:92-219 | a scan session answers its own device in its own epoch for exactly fifteen minutes, with pages from where next_seq stood; each refusal has its own condition |
| Expiry.PurgeAllIsExact | server/internal/store/jobs.go:100-124 | purging a list of expired rows removes exactly them, with consecutive events and exactly their quota |
| Expiry.BatchIsExact | server/internal/store/jobs.go:84-128 | a batch is the min(100, k) earliest expired clips by (expires_at, id), and nothing else changes |
| Expiry.BatchTakesEarliest | server/internal/store/jobs.go:84-89 | the batch in terms of rows: trash past its time, the earliest first, ids deciding ties, all of it if fewer than a hundred |
| Jobs.FirstStayFirst | server/internal/store/jobs.go:84-89 | nothing that expires later or happens in between displaces one of the earliest from the next batch |
| Jobs.ServedThrough | server/internal/store/jobs.go:84-124 | a batch buries everything that was first in line at any time before, whatever was created, restored or purged meanwhile |
| Jobs.BatchLeavesRest | server/internal/store/jobs.go:84-124 | a batch leaves exactly the expired clips beyond the first hundred, so none if and only if there were at most a hundred |
| Jobs.SmallLineIsCleared | server/internal/store/jobs.go:37-73 | an account with at most a hundred expired clips is rid of all of them after the job, under any interference |
| Jobs.OneIsLeft | server/internal/store/jobs.go:70-72 | a reachable account with 101 expired clips, of which one batch leaves one |
| Jobs.Job.ExpiredUsers | server/internal/store/jobs.go:39-60 | at most fifty users with expired trash, and all of them if fewer |
| Jobs.Job.PurgeRound | server/internal/store/jobs.go:61-69 | a round takes trash rows away and serves each of its users, with other transactions between any two |
| Jobs.Job.PurgeExpired | server/internal/store/jobs.go:37-73 | while nobody trashes, the outer loop ends and every account's first in line are purged; undisturbed, fewer than fifty accounts are left with expired trash; and if there were fewer than fifty to serve, each gets exactly one batch, so nothing expired is left if and only if there were at most a hundred |
| Commits.StepKeepsOk | docs/04-sync-protocol.md:62-79 | every statement of overlapping transactions keeps lock, numbering, retention and log in order |
| Commits.ReaderSeesEveryNumber | server/internal/store/sync.go:30-50 | a reader that takes next_seq = H in one statement and rows in a later one finds exactly every number after its cursor up to H, unless retention has passed the cursor by then |
| Commits.NothingAppearsBehind | server/internal/store/clips.go:33-85 | a number that becomes visible later is above every next_seq read before, so no cursor passes an uncommitted one |
| Commits.UpdateIsExactIff | server/internal/store/jobs.go:144-152 | the minimum is the earliest retained number if and only if the scan found one or nobody committed since |
| Commits.OthersKeepExact | server/internal/store/clips.go:84-85 | no other statement moves or spoils the minimum |
| Commits.AlwaysExactIff | server/internal/store/jobs.go:140-152 | over a whole run the minimum is exact at every moment if and only if every update comes in time, and then it never moves back |
| Commits.OverlapOvershoots | server/internal/store/jobs.go:140-152 | the failing overlap, step by step: an event below the minimum, and the minimum falling afterwards |
| SnapshotScan.ScanIsOrdered | server/internal/store/sync.go:169-204 | ids rise strictly across all pages of a scan |
| SnapshotScan.ScanIsComplete | server/internal/store/sync.go:169-204 | a clip from before the base that stays visible is returned, whatever lands between pages |
| SnapshotScan.ScanReturnsOnce | server/internal/store/sync.go:169-204 | it is returned exactly once if and only if its id is not the nil UUID |
| Listing.PageIsNewest | server/internal/store/clips.go:208-247 | a page is the newest rows of exactly the status, device and window of creation times asked for, as they are now and without expired trash, none skipped before its token |
| Listing.WalkReturnsOnce | server/internal/store/clips.go:204-247 | under any transactions between pages, a clip that keeps matching the filter comes back exactly once, and only matching rows come back |
| Replica.SyncedPersists | clients/windows/OnlineClipboard.Windows/Core/SyncEngine.cs:106-146 | no run of other devices' transactions breaks what the cursor vouches for |
| Replica.SyncedShows | clients/windows/OnlineClipboard.Windows/Core/SyncEngine.cs:160-166 | what the cursor vouches for is cached with the server's status, version, created_seq and expiry |
| Replica.StaleShows | clients/windows/OnlineClipboard.Windows/Core/SyncEngine.cs:160-166 | an entry is stale if and only if one of the four fields differs from the row, or the row is gone |
| Replica.FetchAdvances | clients/windows/OnlineClipboard.Windows/Core/SyncEngine.cs:124-140 | fetching the clip of the next event, even much later, moves the effective cursor over that event |
| Replica.PageAdvances | clients/windows/OnlineClipboard.Windows/Core/SyncEngine.cs:89-98 | storing a scan page extends what is scanned to its token; the last page completes the scan |
| Replica.ScanShrinks | server/internal/store/sync.go:169-204 | a page with a successor strictly reduces the rows left to scan |
| Replica.OthersAddNoScanRows | server/internal/store/sync.go:169-204 | no other device can add a row to a scan under way |
| Replica.FetchCarries | clients/windows/OnlineClipboard.Windows/Core/SyncEngine.cs:122-140 | fetching the clip of the next event leaves entries of hidden clips as they are and makes no entry stale |
| Replica.PageCarries | clients/windows/OnlineClipboard.Windows/Core/SyncEngine.cs:89-96 | so does storing a page of a scan |
| Replica.StaleIffDirty | clients/windows/OnlineClipboard.Windows/Core/SyncEngine.cs:88-96 | a cache of known clips that owes nothing is right if and only if it holds no stale entry of a purged, expired or nil-UUID clip |
| Replica.VerdictHolds | clients/windows/OnlineClipboard.Windows/Core/SyncEngine.cs:83-146 | what a rebuild or pull leaves: an entry hidden and stale at the beginning stays unless its clip is purged meanwhile; an entry stale in the end was there from the beginning and its clip is hidden by now; if neither clock nor hidden rows move, the cache ends right if and only if it began without such an entry |
| Replica.MeanwhileDecides | clients/windows/OnlineClipboard.Windows/Core/SyncEngine.cs:83-104 | from any account with a clip in the trash: expiry between beginning and end makes an entry stuck, a purge resolves a stuck one |
| Replica.QuiescentAgreement | clients/windows/OnlineClipboard.Windows/Core/SyncEngine.cs:106-146 | at the watermark the cache holds exactly the server's unpurged clips, each as the server has it and only expired trash optional, if and only if nothing in it is stale |
| Replica.ConvergedIff | clients/windows/OnlineClipboard.Windows/Core/SyncEngine.cs:160-166 | agreement field by field, in both directions |
| SyncEngine.Engine.ApplyEvent | clients/windows/OnlineClipboard.Windows/Core/SyncEngine.cs:122-140 | one event advances the agreement by one, or fails and keeps it; entries of hidden clips are left alone and none becomes stale |
| SyncEngine.Engine.ApplyPage | clients/windows/OnlineClipboard.Windows/Core/SyncEngine.cs:122-140 | a page applied in full moves the agreement to its end; an error partway leaves it at the cursor; entries of hidden clips are left alone and none becomes stale |
| SyncEngine.Engine.TakePage | clients/windows/OnlineClipboard.Windows/Core/SyncEngine.cs:122-145 | the cursor moves to the end of a page only after all of it has been applied, and a secured cursor stays secured |
| SyncEngine.Engine.PullPage | clients/windows/OnlineClipboard.Windows/Core/SyncEngine.cs:109-145 | one turn of the pull loop keeps the cursor invariant and makes progress on a quiet server; a cursor that the server does not accept when asked is refused, one that retention spares never is |
| SyncEngine.Engine.PullChanges | clients/windows/OnlineClipboard.Windows/Core/SyncEngine.cs:106-146 | the loop ends; the cursor invariant holds at every exit and success reaches at least the watermark of the call; a cursor that retention spares never makes it rebuild, and from a refused one it ends with the verdict on a full rebuild; without a rebuild it ends with the verdict on the pull |
| SyncEngine.Engine.StoreItems | clients/windows/OnlineClipboard.Windows/Core/SyncEngine.cs:92-96 | a page's items are stored in order |
| SyncEngine.Engine.Scan | clients/windows/OnlineClipboard.Windows/Core/SyncEngine.cs:85-98 | the scan ends and leaves everything untouched since its base cached as the server has it, entries of hidden clips left alone and none become stale |
| SyncEngine.Engine.Rebuild | clients/windows/OnlineClipboard.Windows/Core/SyncEngine.cs:83-104 | from nothing known to an accepted cursor at the watermark; the verdict tells what becomes of the entries cached before, and on a gentle schedule there is only one scan |
| SyncEngine.Engine.CatchUp | clients/windows/OnlineClipboard.Windows/Core/SyncEngine.cs:73-81 | rebuilds if and only if nothing is known yet, with the same promise |
| SyncEngine.RefusedIsTurnedAway | server/internal/store/sync.go:34-42 | a refused cursor is still refused at the next call, whatever is committed by then short of a new epoch |
| SyncEngine.Engine.Receive | clients/windows/OnlineClipboard.Windows/Core/SyncEngine.cs:23-24 | everything after the upload: rebuild or not, pull, and what agreement at the watermark means in each of the three cases of the cursor |
| SyncEngine.Engine.Upload | clients/windows/OnlineClipboard.Windows/Core/SyncEngine.cs:58-70 | the row leaves the outbox only when the server holds exactly this envelope, and its cached item takes version 1 and the number of its creation, nothing else |
| SyncEngine.Engine.FlushOutbox | clients/windows/OnlineClipboard.Windows/Core/SyncEngine.cs:56-71 | success empties the outbox; every row that left is registered and its item has the numbers of its creation; no other item changes; the cursor invariant stays |
| SyncEngine.Engine.EnqueueLocal | clients/windows/OnlineClipboard.Windows/Core/SyncEngine.cs:176-200 | the copy is queued or registered, and shown as active at version 1 with number 0 or that of its creation; the cursor invariant stays |
| SyncEngine.Engine.RunOnce | clients/windows/OnlineClipboard.Windows/Core/SyncEngine.cs:16-36 | from an empty cache and outbox, on any gentle schedule, success at the watermark is agreement with the server, clip by clip and field by field; at the watermark agreement and cleanliness are the same; from nothing known, from a refused cursor and from one that retention spares, the verdict says when both hold |
| SyncEngine.ComeBack | clients/windows/OnlineClipboard.Windows/Core/SyncEngine.cs:16-36 | on a quiet server, without a cursor or with a refused one: success at the watermark, with agreement if and only if no cached clip was purged or is expired trash cached otherwise; each such entry is still there |
| SyncEngine.StaleAfterLongAbsence | clients/windows/OnlineClipboard.Windows/Core/SyncEngine.cs:83-119 | from any engine between calls: a cached clip is purged, the log is emptied, and the next successful synchronisation still shows it |
| SyncEngine.ActiveAfterLongAbsence | clients/windows/OnlineClipboard.Windows/Core/SyncEngine.cs:83-119 | from any engine between calls: a cached clip is trashed and a month passes, and after the next successful synchronisation it still shows as active |
| Outbox.UploadedExactlyOnce | clients/windows/OnlineClipboard.Windows/Core/SyncEngine.cs:56-71 | under any loss, delay, doubling and overlap each copy has at most one creation event, and exactly one, of this content, once its row is gone |
| Outbox.AnswersAgree | server/internal/store/clips.go:53-68 | all answers to one envelope carry the same receipt |
| Outbox.RewriteAgreesIff | clients/windows/OnlineClipboard.Windows/Core/SyncEngine.cs:62-69 | writing the read item back leaves agreement if and only if the clip is still at version 1 and the item was read as active |
| Outbox.OverlapRevertsVersion | clients/windows/OnlineClipboard.Windows/Core/SyncEngine.cs:176-200 | from any account that accepts the copy there is a run in which a pulled version 2 in the trash falls back to an active version 1 |
| Sessions.RefreshTokensAreSingleUse | server/internal/store/auth.go:475-555 | in any interleaving and after cleanup no refresh token is accepted twice, and no used or accepted token is a current one |
| Sessions.BearerIsUnique | server/internal/store/store.go:119-156 | a bearer token stands for one session |
| Sessions.ReuseKillsFamily | server/internal/store/auth.go:486-494 | presenting a used token revokes its family; no token of it authenticates or refreshes in any later state |
| Sessions.RevocationIsPermanent | server/internal/store/auth.go:557-591 | a revoked session never changes, authenticates or refreshes again |
| Sessions.RevokedDeviceStaysOut | server/internal/store/auth.go:624-654 | no session of a revoked device authenticates or passes a refresh check, even if a sign-in under way issues it afterwards |
| Sessions.SessionsEnd | server/internal/store/store.go:142-173 | no session authenticates later than 30 days and 15 minutes after issue, plus the longest time any rotation was written past its deadline; such a bound exists for every run |
| Sessions.LateRotationOutlives | server/internal/store/auth.go:520-541 | a rotation written any time after the deadline authenticates exactly that much past the bound, and not longer |
| Sessions.AuthStore.Refresh | server/internal/store/auth.go:475-555 | one call is the overlapping steps in a row, beside any other transactions that do not hold its rows; every refusal in the order of the checks |
| Sessions.AuthStore.LookupAccess | server/internal/store/store.go:119-156 | accepts exactly what authenticates, and each refusal has exactly its own condition |
| Sessions.AuthStore.Login | server/internal/store/auth.go:285-320 | a revoked device is turned away, a new one registered, and the session is a new family |
| Sessions.AuthStore.Logout | server/internal/store/auth.go:557-560 | exactly this session is revoked, now, unless it was before; nothing else changes |
| Sessions.AuthStore.RevokeUser | server/internal/store/auth.go:582-585 | exactly the sessions of the user are revoked, as far as they were not; nothing else changes |
| Sessions.AuthStore.RevokeDevice | server/internal/store/auth.go:624-654 | the device and exactly its sessions are revoked; an unknown device is not found |
| Sessions.AuthStore.CleanupUsed | server/internal/store/jobs.go:162-164 | exactly the expired used tokens go |
| Tokens.LogoutEnds | server/internal/store/auth.go:557-560 | after its logout a session neither authenticates nor refreshes in any run, and no other session changes |
| Tokens.UserRevocationEnds | server/internal/store/auth.go:582-588 | a changed password ends every session of the user, and no one else's |
| Tokens.DeviceRevocationEnds | server/internal/store/auth.go:624-654 | revoking a device ends its sessions and bars it from signing in; every other device and session stays |
| Tokens.OtherFamiliesStay | server/internal/store/auth.go:486-494 | a reused token revokes its own family only |
| Tokens.EverybodyIsOut | server/internal/store/store.go:98-117 | rotating the epoch ends every session |
| Tokens.InactiveUserStaysOut | server/internal/store/store.go:119-156 | a user who is not active has no session that authenticates or refreshes, and cannot sign in |
| Tokens.SignInLasts | server/internal/store/auth.go:285-320 | a sign-in opens one session whose access token works for exactly fifteen minutes and whose refresh token for exactly thirty days |
| Tokens.RotationSwaps | server/internal/store/auth.go:520-555 | a rotation ends the old access token, starts the new one for exactly fifteen minutes, records the old refresh token as used and moves neither deadline nor other sessions |
| Tokens.ReuseIsNoticed | server/internal/store/auth.go:475-494 | until the deadline of its session a used token is recognised in any run, cleanup included |
| Canon.SeqRoundTrip | server/internal/canon/canon.go:125-138 | FormatSeq and Seq are inverse on 63-bit numbers, and only canonical text is read |
| Canon.AppendLenPrefixed | server/internal/canon/canon.go:178-183 | appends the 32-bit big-endian length and the field |
| Canon.HashFields | server/internal/canon/canon.go:185-192 | the hashed buffer is the concatenation of the prefixed fields |
| Canon.FrameInjective | server/internal/canon/canon.go:178-192 | the buffer determines the field list when lengths are below 2^32 |
| Canon.OversizedFieldsCollide | server/internal/canon/canon.go:178-183 | at 2^32 bytes the length wraps and two lists share a buffer |
| Canon.CreateHashInjective | server/internal/canon/canon.go:194-206 | create hashes agree if and only if the envelopes do |
| Canon.OperationHashInjective | server/internal/canon/canon.go:208-214 | operation hashes agree only for the same kind, clip and version |
| Canon.HashKindsDisjoint | server/internal/canon/canon.go:194-214 | no create request hashes like an operation |
| Vectors.CreateInputReads | server/internal/canon/canon.go:194-206 | the hash input of a create, field after field in the fixed order, each after its length |
| Vectors.OperationInputReads | server/internal/canon/canon.go:208-214 | the hash input of a mutation: the word for its kind, the clip, the version |
| Canon.UuidTextInjective | server/internal/canon/canon.go:16-16 | the canonical text determines the UUID |
| Vectors.UuidTextReads | server/internal/canon/canon.go:16-16 | a UUID is written as 8-4-4-4-12 lower-case digits that read back as the number |
| Base64.DecodeIff | server/internal/canon/canon.go:44-59 | a text decodes to bytes if and only if it is their encoding, non-empty and of the expected length |
| Base64.DecodeCanonicalIff | server/internal/clipcrypto/clipcrypto.go:29-38 | the same without pattern and length |
| Base64.AcceptedIffCanonical | server/internal/canon/canon.go:44-59 | accepted are exactly the non-empty symbol texts of a possible length with zero spare bits (section 3.5 of RFC 4648) |
| Base64.DecodeStringIsLax | server/internal/canon/canon.go:48-54 | without the second encoding, spare bits and line breaks would go unnoticed |
| Base64.EncodeInjective | server/internal/canon/canon.go:40-42 | the encoding determines the bytes |
| Base64.TokenIff | server/internal/canon/canon.go:170-176 | a token is accepted if and only if it encodes 32 bytes |
| Vectors.NonceExample | contracts/crypto-v1-vectors.json:42-42 | the beginning of a published nonce |
| Vectors.CiphertextExample | contracts/crypto-v1-vectors.json:43-43 | a piece of a published ciphertext with both special symbols |
| ClipCrypto.ContextInjective | server/internal/clipcrypto/clipcrypto.go:75-104 | on ids without a bar the four context strings are injective and mutually disjoint |
| ClipCrypto.ItemsDiffer | server/internal/clipcrypto/clipcrypto.go:100-104 | on UUIDs the item context agrees if and only if all five parts do |
| Vectors.ItemContextReads | contracts/crypto-v1-vectors.json:34-34 | the context of an item as the published examples spell it |
| ClipCrypto.BarsCollide | server/internal/clipcrypto/clipcrypto.go:75-77 | with a bar in an id two vaults could share a context |
| ClipCrypto.ParseRecoveryCodeIff | server/internal/clipcrypto/clipcrypto.go:156-173 | a code is read as a key if and only if, spaces aside, it is the code of those 32 bytes |
| ClipCrypto.RecoveryRoundTrip | server/internal/clipcrypto/clipcrypto.go:156-173 | a 32-byte key survives being written and typed with spaces anywhere |
| Vectors.RecoveryCodeReads | contracts/crypto-v1-vectors.json:7-7 | a recovery code is oc1_ and the encoded key |
| Limiter.Gate.GateKey | server/internal/httpapi/router.go:677-696 | the filtering loop admits and records as specified, and a refused call changes nothing |
| Limiter.StoredHoldsLastMinute | server/internal/httpapi/router.go:677-696 | along any run the stored list holds every accepted hit of the last minute, in order |
| Limiter.MinuteIsBounded | server/internal/httpapi/router.go:673-696 | any half-open minute holds at most the largest limit used for its key, also where limits differ |
| Limiter.AdmittedIff | server/internal/httpapi/router.go:677-696 | a call passes if and only if the last minute holds fewer accepted hits than its limit |

## Left out

- Integer widths of `next_seq` (BIGINT), `version` and `item_count` (INTEGER): numbers are unbounded here.
- Stored receipts as JSON: a receipt is kept as a value, so marshalling is not modelled.
- The text of page tokens of listings and scans (created_seq, bar, id): a token is a value here.
- Order of outbox rows by created_at: uploads are modelled in any order.
- History text, previews, creation times, source devices, nonces and ciphertexts in the cache, and the live write to the system clipboard.
- `ChangePassword`, `ResetPassword` and `Login`: the password check itself, and a sign-in that overlaps a password change.
- `RotateSyncEpoch` as three separate statements; its effects are three separate actions.
- The token refresh of `RunOnceAsync` on a 401 answer, and its waiting for the gate.
- External accounts, email codes, invitations, device names, vault envelopes, HTTP, JSON, WebSocket and notification.
- AES-GCM, HKDF and Argon2; only the strings they are bound to are modelled.
- The Android client, which depends on how its JSON library treats a null page token.
- Deadlocks and lock waits between accounts: accounts are independent here, and in the expiry job each has its own clock.
- Jobs.Job.PurgeExpired: with fifty or more users to serve, or with others acting, promises the first batch of every account and not which accounts get a second one, because the query names users in no order.
- SyncEngine.Engine.EnqueueLocal: assumes that no synchronisation is under way; module `Outbox` covers the overlap without claiming cache agreement.
- Server.Store.Changes: reads counters and rows from one state; the two reads of the code are covered by History.SplitReadIsExactIff and Commits.ReaderSeesEveryNumber.
- Server.Store.RetainEvents: is one step on one account; its statements under overlap are covered by module `Commits`.
- Sessions.AuthStore.Refresh: is stated for the moment the rows it wants are free, since until then it waits; what others do between its statements is covered by the step model. The same holds for Logout, RevokeUser and RevokeDevice.
