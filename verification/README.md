# Fraud platform: a Dafny model

A verification project for a fraud-scoring backend written in Go and its Android and Expo SDKs. It models the
stateful protocols between them, where at-least-once delivery, retries, leases, caches and rotation must still
give exact results, and the codecs, scoring engine and settings merge beside them. `dafny verify dfyconfig.toml`
checks the whole project.

## How the model is built

- A protocol is a state, a set of steps and a function that applies one step. Theorems about runs quantify over
  every sequence of steps; a step that is not possible leaves the state as it is, or is excluded by a validity
  predicate. Crashes, lost messages and any number of concurrent parties are ordinary steps.
- Code that changes fields, arrays or files is a class or a method with loops, proved against the functions that
  the protocol theorems use.
- One SQL statement or transaction is one step. Tables are maps and sequences. `fraud-ingest-server-go/schema.sql`
  gives the unique indexes the statements rely on: event ids (lines 106-107), decisions (135-136), and tenant keys
  (the primary key at line 39).
- Times are milliseconds, except in the outbox (seconds, real) and where the source itself uses whole seconds.
- JSON, signatures, clocks, random draws and network outcomes are parameters of the step or method that meets them.

| file | what it holds |
|---|---|
| `Outbox.dfy`, `OutboxResults.dfy` | webhook rows, leases, dispatchers, exclusion; what a row says of its recorded results |
| `Ingest.dfy`, `IngestLaws.dfy`, `IngestTables.dfy` | dedupe and incremental aggregates against folds; every table read off the uploads |
| `EventQueue.dfy`, `Delivery.dfy` | the Android file queue and uploader; device, network and server end to end |
| `ScoreIdempotency.dfy` | concurrent retries of a scoring call |
| `TenantKeys.dfy` | key versions, cached verification, rotation and revocation |
| `ExpoSession.dfy`, `AndroidSession.dfy` | session ids, token caches and the kill switch in the SDKs |
| `ExpoRuns.dfy`, `AndroidRuns.dfy` | users, sessions, events sent and tokens served, read off the steps of a run |
| `DeviceCommands.dfy` | the kill switch from the action row to the device |
| `QueueStore.dfy`, `ExpoTransport.dfy` | the Expo queue, its batches in flight and its snapshot on disk |
| `Cbor.dfy`, `CborGrammar.dfy` | the CBOR subset decoder and its grammar |
| `Geohash.dfy`, `GeohashLaws.dfy` | the decoder and the two encoders |
| `Policy.dfy`, `Scoring.dfy`, `ScoringLaws.dfy` | signals, scores, threats and interventions |
| `ScoreTable.dfy` | the scoring table: condition and weight of every code, stated on the log |
| `Settings.dfy` | the settings merge and the risk dials |
| `Prelude.dfy` | Option, Result and powers of two |

## Where the code does not do what one might expect

Each of these is a proved statement about the code as it is.

- The outbox's exclusion rests on timing alone. It holds exactly when twenty deliveries take less than the lease
  and the first attempt less than its reservation (`Outbox.ExclusionIffSafeTiming`); so does the finality of
  `delivered` and `dead` (`Outbox.AbsorbingIffSafeTiming`). The limit of ten attempts also survives first attempts
  up to 2104 s long, but not slower deliveries (`Outbox.TenAttemptsIff`).
- `event_count` stays exact exactly as long as no upload writes an event that another has stored since it read
  (`IngestLaws.CountExactIff`); otherwise it is too high, never too low, and with honest resends it is the only
  column that is off (`IngestLaws.EveryHonestHistory`).
- The Android uploader acks by count, so an eviction during an upload can remove an event that was never sent
  (`Delivery.EvictionUnderUploadLoses`), exactly when it leaves more queued than the batch makes up for
  (`Delivery.AckInPlaceIff`). Its backoff doubles without a cap on server errors and overflows; every failure is
  sure to delay the next attempt only while no 47 server errors come in a row (`EventQueue.FailuresDelayIff`).
- The reload limit of the key cache is shared by the requests of one instance; a request that missed a live key
  can be refused because another one has just reloaded (`TenantKeys.RacedRejectionIff`). The five-second bound on
  revocation needs a reachable database (`TenantKeys.RevokedKeyMayBeAccepted`).
- The guards of rotation and revocation are separate statements; interleaved calls leave two active keys or none
  (`TenantKeys.KeyActiveIff` says which, for every interleaving).
- After a logout the Expo SDK can go on serving a token of the session it left (`ExpoSession.LogoutServesOldTokenIff`).
- Android's `tokenAsync` hands out the token it minted even when the session was ended meanwhile
  (`AndroidSession.AsyncTokenAfterKill`).
- A comment on the device leg says that an undelivered command rides the next upload. That holds for a store error.
  The mark precedes the response, so a command whose response is lost is never sent again
  (`DeviceCommands.LostResponseIsFinal`).
- The settings merge is not associative; `Settings.MergeAssociatesIff` says exactly when it is.
- A patch of the settings reads and writes in two statements, so of two concurrent patches the second can undo the
  first (`Settings.RacedPatchSurvivesIff`).
- The cap of the Expo queue file counts UTF-16 units, not the bytes written (`QueueStore.CapCountsBytesIff`).

## Model

| member | source | states |
|---|---|---|
| `Outbox.ActionTable.MarkWebhookResult` | `fraud-ingest-server-go/store_console.go:442-460` | The UPDATE that records one delivery, never looking at the row's current status: one more attempt; delivered, with its time, iff it succeeded, even on the tenth attempt; dead iff it failed and ten are recorded; the error text; an unknown id changes nothing |
| `Outbox.ActionTable.DispatchTick` | `fraud-ingest-server-go/console.go:819-841` | One dispatcher tick: every claimed row is leased, then marked with its own outcome, or left leased when its result cannot be recorded; all other rows untouched |
| `Outbox.MarkKeepsRowSound` | `fraud-ingest-server-go/store_console.go:442-460` | Recording any result at any time keeps the row sound, and a retry lies 4 to 1536 seconds ahead, so the one-hour cap never binds |
| `Outbox.DelayBound` | `fraud-ingest-server-go/store_console.go:442-460` | The jittered delay stays within 20 % of the nominal doubling backoff |
| `Outbox.SafeTimingExcludes` | `fraud-ingest-server-go/store_console.go:462-482` | With 20 deliveries under 120 s and a first attempt under 60 s, no run of any number of crashing dispatchers ever has one action in flight twice |
| `Outbox.ExclusionIffSafeTiming` | `fraud-ingest-server-go/console.go:764-841` | Mutual exclusion over all runs holds exactly when 20 D < 120 s and F < 60 s |
| `Outbox.SlowDeliveryOverlaps` | `fraud-ingest-server-go/console.go:819-841` | At 6 s per delivery there is a run in which a second dispatcher claims the twentieth row while it is in flight |
| `Outbox.LateFirstAttemptOverlaps` | `fraud-ingest-server-go/console.go:277-292` | A first attempt of 60 s or more can be overtaken by a dispatcher |
| `Outbox.TerminalIsAbsorbing` | `fraud-ingest-server-go/store_console.go:442-482` | Within the timing bounds a delivered or dead row is exactly the same for the rest of every run |
| `Outbox.AbsorbingIffSafeTiming` | `fraud-ingest-server-go/store_console.go:442-482` | Delivered and dead are final in every run exactly when 20 D < 120 s and F < 60 s |
| `Outbox.SlowDeliveryRevives` | `fraud-ingest-server-go/store_console.go:442-460` | At 6 s per delivery there is a run in which a delivered row becomes failed again |
| `Outbox.LateFirstAttemptRevives` | `fraud-ingest-server-go/console.go:277-292` | So there is with a first attempt of 60 s or more |
| `Outbox.LiveRowsComeDue` | `fraud-ingest-server-go/store_console.go:468-482` | Whatever the timing, every live row of every run is claimable again within 1536 s of its last touch |
| `Outbox.StatusTellsAttempts` | `fraud-ingest-server-go/store_console.go:436-460` | Whatever the timing: a row of ten attempts is not live, a dead one had at least ten, a live one without a schedule none, and delivered iff a delivery time is set |
| `Outbox.AttemptsAreBounded` | `fraud-ingest-server-go/store_console.go:436-460` | While 20 deliveries fit in the lease and a first attempt ends before 2104 s, no run attempts a row more than 10 times, overlapping attempts included |
| `Outbox.TenAttemptsIff` | `fraud-ingest-server-go/store_console.go:436-482` | At most ten attempts over all runs holds exactly when 20 D < 120 s and F < 2104 s, the reservation and nine shortest waits |
| `Outbox.SlowDeliveryExceeds` | `fraud-ingest-server-go/console.go:819-841` | At 6 s per delivery there is a run with an eleventh attempt |
| `Outbox.LateFirstAttemptExceeds` | `fraud-ingest-server-go/console.go:277-292` | A first attempt that outlasts ten failures records the eleventh |
| `Outbox.TenFailuresKill` | `fraud-ingest-server-go/store_console.go:436-460` | A fresh action dies on exactly the tenth failure, after waits that sum to 2555 s within 20 % |
| `OutboxResults.RowTellsResults` | `fraud-ingest-server-go/store_console.go:442-482` | In every run, whatever the timing, a row says exactly what its recorded results say: their number, delivered iff the last succeeded, dead iff it failed and there are ten, when and with what error, and the due time from the last claim or failure, 120 s or 5 s doubled per earlier failure within 20 % |
| `OutboxResults.ClaimableIff` | `fraud-ingest-server-go/store_console.go:462-482` | In every run a row may be claimed exactly when its last result was no success, it has fewer than ten, its due time has come, and it is a minute old if it has none |
| `Ingest.TenantStore.DedupeEvents` | `fraud-ingest-server-go/store.go:202-240` | Keeps each event whose id is neither stored nor earlier in the batch, in order; events without an id always pass |
| `Ingest.TenantStore.Summarize` | `fraud-ingest-server-go/store.go:81-114` | One loop computes minimum and maximum time, SIM flag, first install and first user of a session group |
| `Ingest.TenantStore.GroupBySession` | `fraud-ingest-server-go/store.go:68-78` | Groups a batch by session, sessions in first-seen order |
| `Ingest.TenantStore.UpsertSession` | `fraud-ingest-server-go/store.go:111-172` | Session, device, user and user-device rows after one group; `IngestTables.TablesSay` says what they hold after any history |
| `Ingest.TenantStore.UpsertSessions` | `fraud-ingest-server-go/store.go:80-173` | All groups of a batch in order |
| `Ingest.TenantStore.InsertEvents` | `fraud-ingest-server-go/store.go:175-195` | Inserts rows, skipping ids already present |
| `Ingest.TenantStore.RecordBatch` | `fraud-ingest-server-go/store.go:53-197` | The whole transaction: dedupe, upserts, inserts, and the number stored; `IngestTables.TablesSay` and `IngestTables.RowsAreUploaded` say what all tables hold after any history |
| `IngestLaws.FoldMeaning` | `fraud-ingest-server-go/store.go:128-144` | The fold the sessions table is compared with is count, minimum, maximum and disjunction of the rows |
| `IngestLaws.FoldUser` | `fraud-ingest-server-go/store.go:128-144` | The user of the fold is the first non-empty user reference |
| `IngestLaws.FoldConcat` | `fraud-ingest-server-go/store.go:128-144` | Folding a concatenation is merging the folds |
| `IngestLaws.SummaryIsFold` | `fraud-ingest-server-go/store.go:81-114` | One pass over a group computes the fold over the rows it becomes |
| `IngestLaws.BatchKeepsExact` | `fraud-ingest-server-go/store.go:53-197` | Storing a batch with positive timestamps keeps every session equal to the fold over its stored rows, and ids unique |
| `IngestLaws.SplitBatch` | `fraud-ingest-server-go/store.go:53-197` | A batch cut in two stores the same rows and the same five session columns |
| `IngestLaws.ResendChangesNothing` | `fraud-ingest-server-go/store.go:202-240` | Sending any stored identified events again, under any install and at any time, changes no table |
| `IngestLaws.StaleReadOverCounts` | `fraud-ingest-server-go/store.go:60-240` | With a dedupe read from any older snapshot and honest resends, ids stay unique, event_count only over-counts and the other columns stay exact |
| `IngestLaws.OverlapInflatesCount` | `fraud-ingest-server-go/store.go:60-240` | Two overlapping uploads of one new event add one row and two to event_count |
| `IngestLaws.CountExactIff` | `fraud-ingest-server-go/store.go:60-240` | In every history at all, tampered resends and odd timestamps included, a session has at most event_count rows, and exactly that many iff no upload wrote an event of it that already had a row |
| `IngestLaws.StaleReadExactIff` | `fraud-ingest-server-go/store.go:60-240` | From exact tables a stale read keeps all five columns exact iff no event that survives it, in any session, already has a row |
| `IngestLaws.HistoryExactIff` | `fraud-ingest-server-go/store.go:60-240` | With positive timestamps a whole history is exact iff every upload in it was clean in that sense |
| `IngestLaws.EveryHistory` | `fraud-ingest-server-go/store.go:128-172` | In every history, however transactions overlap: unique ids, and a user's session_count never exceeds the sessions bound to it nor falls below the sum over its devices |
| `IngestLaws.EverySerialHistory` | `fraud-ingest-server-go/store.go:53-197` | In every serial history each session is the fold over its rows |
| `IngestLaws.EveryHonestHistory` | `fraud-ingest-server-go/store.go:53-240` | In every overlapping history of honest resends only event_count is inflated |
| `IngestLaws.HistoryOnlyGrows` | `fraud-ingest-server-go/store.go:116-195` | Rows are only appended; a bound user or install stays; first_seen never moves; maxima only grow |
| `IngestLaws.SessionInstallIsFirstRow` | `fraud-ingest-server-go/store.go:93-113` | The install of a new session is that of its first row exactly when the header install cannot come first |
| `IngestLaws.StartIsEarliestRow` | `fraud-ingest-server-go/store.go:82-114` | With non-positive timestamps started_at is the earliest row exactly when none lies before now |
| `IngestTables.TablesSay` | `fraud-ingest-server-go/store.go:111-172` | After every history, overlaps included, read off the uploads: session counters, first and last sightings of users, user-devices and devices, the fingerprint sent last, and install, user, span and SIM flag of each session |
| `IngestTables.SessionCountIs` | `fraud-ingest-server-go/store.go:146-172` | A user's session count is the number of sessions whose creating upload named that user first; on a device, those that also resolved to that install |
| `IngestTables.RowsAreUploaded` | `fraud-ingest-server-go/store.go:175-195` | In every history each stored row is an event of one of its uploads, column by column: type or UNKNOWN, session, install or the header's, user, time or now, payload, SIM flag |
| `IngestTables.DedupeIs` | `fraud-ingest-server-go/store.go:202-240` | Deduplication keeps exactly the events without an id or whose id is neither stored nor borne earlier in the batch, in their order |
| `IngestTables.OrderIs` | `fraud-ingest-server-go/store.go:68-78` | Sessions are taken in the order of their first events |
| `IngestTables.OfIs` | `fraud-ingest-server-go/store.go:68-78` | A session's group is exactly its events, in order |
| `IngestTables.FirstsAre` | `fraud-ingest-server-go/store.go:81-110` | User, install and fingerprint of a group are the first non-empty ones of its events |
| `EventQueue.EventQueue.Offer` | `fraud-sdk-android/src/main/java/com/fraudsdk/transport/EventQueue.java:30-40` | Appends a line after evicting 25 when the file exceeds 512 KiB |
| `EventQueue.OfferedIs` | `fraud-sdk-android/src/main/java/com/fraudsdk/transport/EventQueue.java:30-40` | An offer appends its line, first dropping the 25 oldest exactly when the bytes of the file exceed 524288 |
| `EventQueue.EventQueue.Peek` | `fraud-sdk-android/src/main/java/com/fraudsdk/transport/EventQueue.java:43-55` | The first lines, at most max |
| `EventQueue.EventQueue.Ack` | `fraud-sdk-android/src/main/java/com/fraudsdk/transport/EventQueue.java:58-74` | Drops the first n lines |
| `EventQueue.EventUploader.Settle` | `fraud-sdk-android/src/main/java/com/fraudsdk/transport/EventUploader.java:97-110` | Acks on success and on poison, otherwise doubles the backoff in a 64-bit long |
| `EventQueue.BackoffDoubles` | `fraud-sdk-android/src/main/java/com/fraudsdk/transport/EventUploader.java:105-110` | After any history that ended in a reset, n server errors in a row set the backoff to 5000 times 2 to the n-1, up to the 51st |
| `EventQueue.PausesGrow` | `fraud-sdk-android/src/main/java/com/fraudsdk/transport/EventUploader.java:69-110` | Through those 51 the pause is 5 s doubling to a ceiling of one minute |
| `EventQueue.PauseVanishes` | `fraud-sdk-android/src/main/java/com/fraudsdk/transport/EventUploader.java:69-110` | The 52nd overflows to a negative backoff, and the next attempt is not delayed |
| `EventQueue.ServerErrorsDouble` | `fraud-sdk-android/src/main/java/com/fraudsdk/transport/EventUploader.java:105-110` | From any positive backoff server errors double it for as long as the result fits 64 bits |
| `EventQueue.CodesDelayIff` | `fraud-sdk-android/src/main/java/com/fraudsdk/transport/EventUploader.java:69-110` | Over all histories without network errors whose runs of server errors are at most n long, every failure delays the next attempt by 5 s or more exactly when n is at most 51 |
| `EventQueue.FailuresDelayIff` | `fraud-sdk-android/src/main/java/com/fraudsdk/transport/EventUploader.java:62-110` | Over all histories whose runs of server errors are at most n long, every failure delays the next attempt by 5 s or more exactly when n is at most 46 |
| `EventQueue.NetworkErrorOverflows` | `fraud-sdk-android/src/main/java/com/fraudsdk/transport/EventUploader.java:107-110` | A history with 47 server errors in a row after which a network error turns the backoff negative |
| `EventQueue.NetworkPauses` | `fraud-sdk-android/src/main/java/com/fraudsdk/transport/EventUploader.java:107-110` | After a reset n network errors in a row set the backoff to 5 s doubling to a ceiling of one minute |
| `Delivery.QueueConservation` | `fraud-sdk-android/src/main/java/com/fraudsdk/transport/EventUploader.java:62-113` | The queue is a suffix of everything offered, and events removed neither acked nor poisoned never outnumber the evicted ones |
| `Delivery.EffectivelyOnce` | `fraud-ingest-server-go/store.go:53-240` | Over any run with lost, delayed and repeated requests and overlapping transactions: one row per event id, every event of a batch that got a 2xx is stored, no other rows, session columns exact but for over-counts |
| `Delivery.AckInPlaceIff` | `fraud-sdk-android/src/main/java/com/fraudsdk/transport/EventQueue.java:30-78` | In every reachable upload the answer removes only events of its own batch exactly when nothing was evicted since the peek, the queue is empty, or the queue and the evicted together are no longer than the batch |
| `Delivery.RemovedMeans` | `fraud-sdk-android/src/main/java/com/fraudsdk/transport/EventQueue.java:58-74` | The batch is a stretch of what was offered, and a settling answer takes as many events as the batch has from the front of the queue |
| `Delivery.AckedInPlaceIsStored` | `fraud-sdk-android/src/main/java/com/fraudsdk/transport/EventUploader.java:95-103` | Then every event that a 2xx removes is a row |
| `Delivery.WhereEventsGo` | `fraud-sdk-android/src/main/java/com/fraudsdk/transport/EventUploader.java:62-113` | The events that left the device are exactly those acknowledged, dropped as poison, evicted, or removed by an answer to another batch |
| `Delivery.NoneStrayIff` | `fraud-sdk-android/src/main/java/com/fraudsdk/transport/EventQueue.java:58-78` | No answer of a run removed an event of another batch exactly when every answer was in place |
| `Delivery.LossIsEviction` | `fraud-sdk-android/src/main/java/com/fraudsdk/transport/EventUploader.java:62-113` | When every answer was in place, and without evictions it is, whatever left the device is stored, was refused, or was evicted |
| `Delivery.EvictionUnderUploadLoses` | `fraud-sdk-android/src/main/java/com/fraudsdk/transport/EventQueue.java:58-78` | An eviction between peek and ack makes the ack remove an event that was never sent |
| `ScoreIdempotency.DecisionStore.RecordDecision` | `fraud-ingest-server-go/store.go:513-556` | The decision transaction: alert and row together, or nothing but a spent sequence number when the key is taken |
| `ScoreIdempotency.DecisionStore.GetDecisionReplay` | `fraud-ingest-server-go/store.go:566-584` | The stored answer of a key, none for an empty txnRef, with the intervention recomputed for rows older than that column |
| `ScoreIdempotency.DecisionStore.HandleScore` | `fraud-ingest-server-go/ingest.go:330-454` | One request alone: a decided key is replayed untouched, any other is scored and stored |
| `ScoreIdempotency.OneDecisionPerKey` | `fraud-ingest-server-go/ingest.go:330-454` | In every run of concurrent handlers at most one row exists per non-empty (tenant, session, txnRef) |
| `ScoreIdempotency.AlertsMatchHolds` | `fraud-ingest-server-go/store.go:513-556` | In every run scoring alerts and HOLD rows match one to one |
| `ScoreIdempotency.OneAlertPerKey` | `fraud-ingest-server-go/store.go:513-556` | However often a keyed call is retried, it leaves at most one alert |
| `ScoreIdempotency.AnswersAgree` | `fraud-ingest-server-go/ingest.go:330-489` | All successful answers for one key agree on every field, reasons, signals and intervention included |
| `ScoreIdempotency.FirstDecisionWins` | `fraud-ingest-server-go/ingest.go:330-489` | Once a decision is stored, every later successful answer for its key is that decision |
| `ScoreIdempotency.ConflictAlwaysFindsTheRow` | `fraud-ingest-server-go/ingest.go:394-405` | The error for a conflict without a stored row is unreachable |
| `ScoreIdempotency.UnkeyedCallAlwaysRaises` | `fraud-ingest-server-go/ingest.go:327-345` | Without a txnRef one more HOLD call always adds a row and an open alert |
| `ScoreIdempotency.AnswerSays` | `fraud-ingest-server-go/ingest.go:330-489` | In every run each answer repeats a row from before or says exactly one verdict scored for its key: decision, score, reasons, signals, threat, an alert iff it is a hold, and the advice that goes with them |
| `ScoreIdempotency.HoldGoesToAnalyst` | `fraud-ingest-server-go/scoring.go:1108-1120` | A hold, fresh or replayed, carries ANALYST_REVIEW and an alert, unless a row from before the run says otherwise |
| `TenantKeys.ServerInstance.LoadTenants` | `fraud-ingest-server-go/tenants.go:103-186` | Replaces the cache by the live keys of every tenant, read in two passes |
| `TenantKeys.ServerInstance.TryReloadTenants` | `fraud-ingest-server-go/tenants.go:206-218` | A forced refresh, refused within a second of the last load or when the database is down |
| `TenantKeys.ServerInstance.GetTenant` | `fraud-ingest-server-go/tenants.go:188-201` | Answers from the cache, refreshed first when it is over 5 s old or lacks the tenant |
| `TenantKeys.ServerInstance.VerifyTenantSig` | `fraud-ingest-server-go/tenants.go:238-258` | Accepts exactly what the two-look check over the cache accepts |
| `TenantKeys.ServerInstance.Check` | `fraud-ingest-server-go/tenants.go:239-250` | One look: the tenant's cached keys tried in turn |
| `TenantKeys.ServerInstance.VerifySessionToken` | `fraud-ingest-server-go/util.go:76-128` | Accepts exactly the signatures the batch check accepts while the token is at most 3600 s old, and calls it expired after that |
| `TenantKeys.LiveKeyAccepted` | `fraud-ingest-server-go/tenants.go:188-258` | In every run a key live for a second is accepted by every instance |
| `TenantKeys.RevokedKeyRejected` | `fraud-ingest-server-go/tenants.go:188-258` | In every run a key revoked over five seconds ago is rejected by every instance whose reload succeeds |
| `TenantKeys.SessionTokenIff` | `fraud-ingest-server-go/util.go:76-128` | In every run a token signed with a key live for a second is accepted by every instance exactly while it is at most 3600 s old, and refused as expired after that |
| `TenantKeys.AcceptedIsSigned` | `fraud-ingest-server-go/util.go:76-128` | What an instance that reaches the database accepts is at most 3600 s old and signed with a key of that tenant that is live or was revoked at most five seconds ago |
| `TenantKeys.NeverCreated` | `fraud-ingest-server-go/util.go:76-128` | In every run a token of a tenant never created is answered as of an unknown tenant |
| `TenantKeys.KeyLife` | `fraud-ingest-server-go/tenants.go:447-492` | In every run a key comes from one insertion, active and with that step's columns, and is revoked exactly when a revocation named its kid later; a rotation never ends one |
| `TenantKeys.KeysOfIff` | `fraud-ingest-server-go/tenants.go:152-186` | A cached list holds exactly the tenant's keys that are not revoked, each with its own kid, secret and state, in table order |
| `TenantKeys.YoungKeyMayBeRejected` | `fraud-ingest-server-go/tenants.go:206-218` | At every age below a second there is a run that rejects a live key |
| `TenantKeys.RevokedKeyMayBeAccepted` | `fraud-ingest-server-go/tenants.go:188-201` | Up to exactly five seconds after revocation, and indefinitely while the database is down, there is a run that still accepts |
| `TenantKeys.RacedRejectionIff` | `fraud-ingest-server-go/tenants.go:238-258` | With another request on the same instance, a key live for a second is refused exactly when the first look missed it and the other reloaded within the last second |
| `TenantKeys.KeyTable.RotateTenantKey` | `fraud-ingest-server-go/tenants.go:447-468` | Retire then insert; a kid the tenant already has leaves the old key retired |
| `TenantKeys.KeyTable.RevokeTenantKey` | `fraud-ingest-server-go/tenants.go:472-492` | Refuses when no other active key exists, otherwise revokes the kid or reports it missing |
| `TenantKeys.KeyTable.CountOtherActives` | `fraud-ingest-server-go/tenants.go:473-479` | Counts the tenant's active keys other than one kid |
| `TenantKeys.RotateActives` | `fraud-ingest-server-go/tenants.go:447-468` | A rotation leaves exactly one active key, or none when the kid was taken |
| `TenantKeys.RevokeActivesGuarded` | `fraud-ingest-server-go/tenants.go:472-492` | The guard never lets a revocation take the last active key |
| `TenantKeys.SerialKeepsOneActive` | `fraud-ingest-server-go/tenants.go:447-492` | After any serial console operations exactly one key is active iff the last generated kid was fresh |
| `TenantKeys.InterleavedRotations` | `fraud-ingest-server-go/tenants.go:447-468` | Two rotations that both retire before either inserts leave two active keys |
| `TenantKeys.InterleavedRevocations` | `fraud-ingest-server-go/tenants.go:472-492` | Two revocations that both count first can leave no active key |
| `TenantKeys.KeyActiveIff` | `fraud-ingest-server-go/tenants.go:447-492` | However the statements of any rotations and revocations interleave, a key is active at the end iff it was active or first inserted on the way and no retirement or revocation of it followed |
| `TenantKeys.RotationActives` | `fraud-ingest-server-go/tenants.go:447-468` | Interleaved rotations leave one active key for each first use of a kid since the last retirement |
| `TenantKeys.RotationsLeaveOneIff` | `fraud-ingest-server-go/tenants.go:447-468` | So exactly one iff exactly one such insert follows the last retirement |
| `TenantKeys.RevocationsLeaveNoneIff` | `fraud-ingest-server-go/tenants.go:472-492` | Revocations past their guards leave no active key iff they took every one there was |
| `TenantKeys.ActiveKey` | `fraud-ingest-server-go/tenants.go:51-58` | The first active key of the cached list, none iff there is none |
| `TenantKeys.LoadKeepsActives` | `fraud-ingest-server-go/tenants.go:152-186` | A load carries over exactly the active keys of the table |
| `ExpoSession.FraudSdk.RefreshToken` | `fraud-sdk-expo/src/index.ts:106-118` | Joins the mint in flight or starts one for the current identity |
| `ExpoSession.FraudSdk.MintCompleted` | `fraud-sdk-expo/src/index.ts:127-147` | Caches a successful mint only when the session has not rotated |
| `ExpoSession.FraudSdk.TokenUsable` | `fraud-sdk-expo/src/index.ts:97-101` | Fresh and for the current user; the session is not compared |
| `ExpoSession.FraudSdk.Enqueue` | `fraud-sdk-expo/src/index.ts:76-89` | An event carries the current session and user |
| `ExpoSession.FraudSdk.HandleServerCommands` | `fraud-sdk-expo/src/index.ts:191-210` | Each live terminate acks, rotates, clears the cache and reports if a callback is set; all others do nothing |
| `ExpoSession.FraudSdk.HandleCommand` | `fraud-sdk-expo/src/index.ts:193-209` | One pass of the command loop |
| `ExpoSession.FraudSdk.SetUser` | `fraud-sdk-expo/src/index.ts:217-221` | Binds the user and starts a mint unless a usable token is cached |
| `ExpoSession.FraudSdk.ClearUser` | `fraud-sdk-expo/src/index.ts:223-228` | Unbinds, rotates the session id, keeps the cache |
| `ExpoSession.FraudSdk.OnSessionTerminated` | `fraud-sdk-expo/src/index.ts:381-383` | Sets the host callback |
| `ExpoSession.KillSwitch` | `fraud-sdk-expo/src/index.ts:185-210` | Over every run: at most one host callback per session, acks come from exactly the sessions that died and are the last thing sent under them, and the cached token is never of a dead session |
| `ExpoSession.EveryDeathReported` | `fraud-sdk-expo/src/index.ts:191-210` | From the moment the host callback is set every session that dies is reported, in order, and none before |
| `ExpoSession.HeardIff` | `fraud-sdk-expo/src/index.ts:191-210` | Over every run the host hears of a session iff a command ended it while the callback was set |
| `ExpoSession.StaleCommandIgnored` | `fraud-sdk-expo/src/index.ts:191-197` | A repeated or late command for a dead session changes nothing |
| `ExpoSession.LogoutServesOldTokenIff` | `fraud-sdk-expo/src/index.ts:97-101` | Logout serves a token of the session just left exactly when the cached one is anonymous and fresh |
| `ExpoSession.AtMostTwoMints` | `fraud-sdk-expo/src/index.ts:155-162` | Every call awaits at most two mints, and undisturbed it returns a token for its user, even after joining somebody else's mint |
| `ExpoSession.NoLostWakeup` | `fraud-sdk-expo/src/index.ts:106-162` | No call is left waiting without a mint in flight |
| `ExpoSession.ServedTokenAlive` | `fraud-sdk-expo/src/index.ts:155-162` | A token handed out, at once by getToken, setUser or clearUser or after a mint, is never of a session the kill switch ended |
| `ExpoRuns.SentIs` | `fraud-sdk-expo/src/index.ts:76-89` | Everything handed to the transport in a run is one event per track call and one ack per kill, under the session and user of the moment |
| `ExpoRuns.UserIs` | `fraud-sdk-expo/src/index.ts:185-228` | The user bound is that of the last login, or none after a logout or a kill |
| `ExpoRuns.SessionStartsIff` | `fraud-sdk-expo/src/index.ts:185-228` | A session starts at a logout and at a kill, at nothing else, and never with an id used before |
| `ExpoRuns.AwaitIff` | `fraud-sdk-expo/src/index.ts:97-162` | In every run an awaited token is the last mint's exactly when that was for the caller's user and under 45 minutes ago; otherwise the call joins or starts a mint, and gives up after the second |
| `DeviceCommands.ActionStore.DeviceCommandLeg` | `fraud-ingest-server-go/ingest.go:112-157` | Answers with the pending commands of the sessions a request names and marks them delivered; a failed read answers without, a failed mark leaves them pending |
| `DeviceCommands.ActionStore.Sessions` | `fraud-ingest-server-go/ingest.go:122-133` | The sessions of the events and of the header |
| `DeviceCommands.ActionStore.Render` | `fraud-ingest-server-go/ingest.go:140-152` | Ids and commands of the rows found |
| `DeviceCommands.DeliveredMeans` | `fraud-ingest-server-go/store.go:242-260` | In every run a command marked delivered is on its way, has arrived, or was in a response that did not |
| `DeviceCommands.LosslessDelivers` | `fraud-ingest-server-go/ingest.go:112-157` | Without lost responses every command marked delivered arrives |
| `DeviceCommands.LostResponseIsFinal` | `fraud-ingest-server-go/store.go:242-260` | Once its responses are lost a delivered command is never sent again and its session is never ended by it |
| `DeviceCommands.ArrivalEnds` | `fraud-sdk-expo/src/index.ts:191-210` | A command that arrives while its session is current ends it |
| `DeviceCommands.AnswerIs` | `fraud-ingest-server-go/ingest.go:122-152` | The answer carries, in table order, exactly the pending commands for the sessions the request's events and header name, each with its own id, kind and session |
| `AndroidSession.SessionManager.RotateSession` | `fraud-sdk-android/src/main/java/com/fraudsdk/session/SessionManager.java:86-89` | A new session id and a fresh activity time |
| `AndroidSession.SessionManager.Touch` | `fraud-sdk-android/src/main/java/com/fraudsdk/session/SessionManager.java:92-98` | Starts a new session only after an idle gap above the timeout |
| `AndroidSession.SessionManager.SetUser` | `fraud-sdk-android/src/main/java/com/fraudsdk/session/SessionManager.java:100-103` | Binds the user and queues a mint |
| `AndroidSession.SessionManager.ClearUser` | `fraud-sdk-android/src/main/java/com/fraudsdk/session/SessionManager.java:105-109` | Unbinds, rotates and queues a mint |
| `AndroidSession.SessionManager.TokenUsable` | `fraud-sdk-android/src/main/java/com/fraudsdk/session/SessionManager.java:111-119` | Under 45 minutes old, and for the current session and user |
| `AndroidSession.SessionManager.RefreshTokenAsync` | `fraud-sdk-android/src/main/java/com/fraudsdk/session/SessionManager.java:123-127` | Queues a mint for the identity of this moment |
| `AndroidSession.SessionManager.MintCompleted` | `fraud-sdk-android/src/main/java/com/fraudsdk/session/SessionManager.java:127-134` | Caches a successful mint only when its session is still current |
| `AndroidSession.SessionManager.CurrentToken` | `fraud-sdk-android/src/main/java/com/fraudsdk/session/SessionManager.java:139-143` | The cached token if usable, else nothing and a queued mint; `AndroidRuns.CurrentTokenIff` says when |
| `AndroidSession.SessionManager.HandleServerCommands` | `fraud-sdk-android/src/main/java/com/fraudsdk/session/SessionManager.java:183-210` | Live terminates end the session, stale or foreign commands do nothing |
| `AndroidSession.SessionManager.EndSession` | `fraud-sdk-android/src/main/java/com/fraudsdk/session/SessionManager.java:193-207` | Ack, unbind, rotate, clear, mint, and report to the listener if there is one |
| `AndroidSession.SessionManager.SetCommandListener` | `fraud-sdk-android/src/main/java/com/fraudsdk/session/SessionManager.java:170-172` | Registers or removes the listener |
| `AndroidSession.CurrentTokenIsCurrent` | `fraud-sdk-android/src/main/java/com/fraudsdk/session/SessionManager.java:111-143` | In every run a token handed out is for the current session and user, of no terminated session, and cached under 45 minutes ago |
| `AndroidRuns.CurrentTokenIff` | `fraud-sdk-android/src/main/java/com/fraudsdk/session/SessionManager.java:111-143` | In every run currentToken hands out the last mint that succeeded for the current session, and queues nothing, exactly when it was for the current user and under 45 * 60 * 1000 ms ago; otherwise nothing, and one mint is queued for the current session and user |
| `AndroidRuns.TokenAsyncIff` | `fraud-sdk-android/src/main/java/com/fraudsdk/session/SessionManager.java:147-166` | The same for tokenAsync, whose queued mint answers the call |
| `AndroidRuns.RequestsInOrder` | `fraud-sdk-android/src/main/java/com/fraudsdk/session/SessionManager.java:100-166` | The worker mints for exactly the requests of the run, one after another and in their order |
| `AndroidRuns.SessionStartsIff` | `fraud-sdk-android/src/main/java/com/fraudsdk/session/SessionManager.java:86-109` | A session starts at a logout, at a kill, and at an interaction after a pause longer than the idle timeout; at nothing else, and never with an id used before |
| `AndroidRuns.SentIs` | `fraud-sdk-android/src/main/java/com/fraudsdk/session/SessionManager.java:183-210` | Everything sent in a run is one event per track call and one ack per kill, under the session and user of the moment |
| `AndroidRuns.UserIs` | `fraud-sdk-android/src/main/java/com/fraudsdk/session/SessionManager.java:100-109` | The user bound is that of the last login, or none after a logout or a kill |
| `AndroidSession.ServerAcceptsIff` | `fraud-ingest-server-go/util.go:123-126` | From the second second on, every server accepts a token exactly while it is at most 3600 whole seconds old |
| `AndroidSession.ServedTokenAccepted` | `fraud-ingest-server-go/util.go:123-126` | With at most 15 minutes of latency in all, every server instance of any run accepts such a token if its key has been live for a second |
| `AndroidSession.LatencyBudgetIff` | `fraud-ingest-server-go/util.go:123-126` | The exact latency budget in whole milliseconds under which no server refuses a token younger than 45 minutes |
| `AndroidSession.KillSwitch` | `fraud-sdk-android/src/main/java/com/fraudsdk/session/SessionManager.java:183-210` | Over every run: each terminated session acked exactly once, in order, reported at most once, and no token of one in the cache |
| `AndroidSession.HeardIff` | `fraud-sdk-android/src/main/java/com/fraudsdk/session/SessionManager.java:183-210` | Over every run the host hears of a session iff a command ended it while a listener was registered |
| `AndroidSession.EveryDeathReported` | `fraud-sdk-android/src/main/java/com/fraudsdk/session/SessionManager.java:183-210` | While a listener stays registered every session that dies is reported, in order |
| `AndroidSession.StaleCommandIgnored` | `fraud-sdk-android/src/main/java/com/fraudsdk/session/SessionManager.java:188-191` | A repeated or late command changes nothing |
| `AndroidSession.AsyncTokenKeepsItsIdentity` | `fraud-sdk-android/src/main/java/com/fraudsdk/session/SessionManager.java:147-166` | A tokenAsync call that mints is answered for the identity of the moment it was made, however late |
| `AndroidSession.AsyncTokenAfterKill` | `fraud-sdk-android/src/main/java/com/fraudsdk/session/SessionManager.java:147-166` | A kill during that mint hands the caller a token of the killed session |
| `ExpoTransport.Transport.constructor` | `fraud-sdk-expo/src/wire/transport.ts:38-59` | Adopts the typed, parseable lines on disk until 500, and removes the file |
| `ExpoTransport.Transport.Enqueue` | `fraud-sdk-expo/src/wire/transport.ts:83-89` | Stamps an id once and appends below 500 |
| `ExpoTransport.Transport.PersistNow` | `fraud-sdk-expo/src/wire/transport.ts:75-81` | Writes the snapshot of the queue |
| `ExpoTransport.Transport.BeginFlush` | `fraud-sdk-expo/src/wire/transport.ts:138-144` | Takes the whole queue as the batch |
| `ExpoTransport.Transport.EndFlush` | `fraud-sdk-expo/src/wire/transport.ts:145-181` | Success, poison, or re-queueing the newest 100 before the queue with an immediate snapshot |
| `ExpoTransport.Partition` | `fraud-sdk-expo/src/wire/transport.ts:83-181` | While the app lives an event enqueued once is in exactly one of queue, in flight, acknowledged, dropped |
| `ExpoTransport.QueueBound` | `fraud-sdk-expo/src/wire/transport.ts:138-181` | With at most k flushes at once the queue never exceeds 500 + 100 (k - in flight) |
| `ExpoTransport.QueueBoundReached` | `fraud-sdk-expo/src/wire/transport.ts:138-181` | For every k some run reaches 500 + 100 k |
| `ExpoTransport.RestartAdopts` | `fraud-sdk-expo/src/wire/transport.ts:47-59` | A restart after a snapshot adopts exactly the first 500 typed events of the longest suffix that fits |
| `ExpoTransport.LiveAtMostOnce` | `fraud-sdk-expo/src/wire/transport.ts:47-181` | Through any number of kills an event enqueued once is never live twice |
| `ExpoTransport.KillAfterFailure` | `fraud-sdk-expo/src/wire/transport.ts:172-180` | A kill right after a failed upload loses only what the file and the restart cannot hold |
| `QueueStore.Store.PersistQueue` | `fraud-sdk-expo/src/platform/queueStore.ts:62-80` | The backward walk writes the longest suffix within the cap |
| `QueueStore.Store.TakePersistedQueue` | `fraud-sdk-expo/src/platform/queueStore.ts:48-59` | The non-empty lines, and the file is gone |
| `QueueStore.Store.ClearPersistedQueue` | `fraud-sdk-expo/src/platform/queueStore.ts:82-91` | The file is gone |
| `QueueStore.KeptIsLongest` | `fraud-sdk-expo/src/platform/queueStore.ts:62-80` | A suffix fits under the cap iff it is no longer than what is kept |
| `QueueStore.SnapshotReadsBack` | `fraud-sdk-expo/src/platform/queueStore.ts:48-80` | Reading a snapshot gives back exactly the kept lines |
| `QueueStore.TornWrite` | `fraud-sdk-expo/src/wire/transport.ts:55-57` | A write cut anywhere reads back as whole first lines and at most one piece of the next |
| `QueueStore.CapCountsBytesIff` | `fraud-sdk-expo/src/platform/queueStore.ts:62-80` | The file never takes more than three times the cap in UTF-8; it never takes more than the cap, for all queues over an alphabet, iff the alphabet is ASCII |
| `Cbor.CborHead` | `fraud-ingest-server-go/attestation.go:508-531` | The head: major type, length from its 0, 1, 2, 4 or 8 bytes, or the matching error |
| `Cbor.CborItem` | `fraud-ingest-server-go/attestation.go:533-584` | The recursive decoder equals the recursive specification, in at most one call per byte plus one |
| `Cbor.CborArray` | `fraud-ingest-server-go/attestation.go:553-563` | The element loop, with that bound on calls even for a declared count near 2 to the 64 |
| `Cbor.CborMap` | `fraud-ingest-server-go/attestation.go:564-581` | The entry loop: text keys only, the last duplicate wins, with that bound on calls |
| `Cbor.CborPair` | `fraud-ingest-server-go/attestation.go:566-580` | One key and value |
| `Cbor.CborDecode` | `fraud-ingest-server-go/attestation.go:497-506` | One item and nothing after it |
| `CborGrammar.DecodeIffSerialization` | `fraud-ingest-server-go/attestation.go:497-584` | The decoder accepts exactly the serialisations of the definite-length subset of section 3 of RFC 8949, every sufficiently wide head form included, with the value they denote |
| `CborGrammar.Decoded` | `fraud-ingest-server-go/attestation.go:533-584` | Decoding any serialisation followed by anything returns its value and the rest |
| `CborGrammar.Parsed` | `fraud-ingest-server-go/attestation.go:533-584` | Everything accepted is a serialisation of its value followed by the rest |
| `CborGrammar.SelfDelimiting` | `fraud-ingest-server-go/attestation.go:533-584` | Bytes after an item never change it, and the rest is a strictly shorter suffix |
| `CborGrammar.PrefixFree` | `fraud-ingest-server-go/attestation.go:497-506` | No accepted item is a proper prefix of another |
| `CborGrammar.LastEntryWins` | `fraud-ingest-server-go/attestation.go:564-581` | A decoded map has exactly the keys of its entries, and a repeated key keeps its last value |
| `CborGrammar.TrailingIff` | `fraud-ingest-server-go/attestation.go:497-506` | Trailing bytes are reported exactly for a whole item with something behind it |
| `CborGrammar.UintHead` | `fraud-ingest-server-go/attestation_test.go:10-19` | The test encoder writes a readable head, and for which lengths |
| `CborGrammar.StringRoundTrip` | `fraud-ingest-server-go/attestation_test.go:21-22` | Encoded text and byte strings decode to themselves |
| `CborGrammar.TestEncoderRoundTrip` | `fraud-ingest-server-go/attestation_test.go:10-22` | The test encoder's round trip holds exactly below 65536 bytes |
| `Geohash.GeohashCentroid` | `fraud-ingest-server-go/scoring.go:201-230` | The decoder returns the centre of the cell a hash names; false and zeros on malformed or empty input |
| `Geohash.ExpoGeohash` | `fraud-sdk-expo/src/collectors/location.ts:42-79` | The doubling loop computes the closed-comparison encoding |
| `Geohash.AndroidGeohash` | `fraud-sdk-android/src/main/java/com/fraudsdk/collectors/LocationCollector.java:86-105` | The bit-setting loop computes the open-comparison encoding |
| `Geohash.AlphabetIsB32` | `fraud-ingest-server-go/scoring.go:202-202` | The symbols are the 32 characters of the source's alphabet, in order |
| `GeohashLaws.CentroidEncodesBack` | `fraud-ingest-server-go/scoring.go:198-230` | Both encoders applied to the centroid of any valid hash return it |
| `GeohashLaws.InteriorEncodesBack` | `fraud-sdk-expo/src/collectors/location.ts:42-79` | Both encoders return a hash from every point in the interior of its cell |
| `GeohashLaws.DecodesToTheCell` | `fraud-ingest-server-go/scoring.go:201-230` | The server decodes what a device encoded to exactly the cell the device reached |
| `GeohashLaws.CentroidError` | `fraud-ingest-server-go/scoring.go:198-230` | For in-range points the centroid is within 180 / 2^ceil(5p/2) and 90 / 2^floor(5p/2) degrees |
| `GeohashLaws.Nests` | `fraud-sdk-expo/src/collectors/location.ts:51-78` | A hash of lower precision is a prefix of one of higher precision |
| `GeohashLaws.EncodersAgree` | `fraud-sdk-android/src/main/java/com/fraudsdk/collectors/LocationCollector.java:86-105` | The two encoders agree exactly when neither coordinate lies on an interior boundary of the grid |
| `GeohashLaws.BitsAre` | `fraud-sdk-expo/src/collectors/location.ts:42-79` | For in-range points each bit of a hash, longitude first and alternating, is the last bit of the number of the cell the coordinate is in, counted from the west or the south |
| `Scoring.ScoreSession` | `fraud-ingest-server-go/scoring.go:385-1101` | The engine returns its sections' signals in order, the capped sum, the codes and the threat label; `ScoreTable.SignalsAreTable` and `ScoreTable.LabelIs` say which |
| `Scoring.ScoreConduct` | `fraud-ingest-server-go/scoring.go:392-655` | Calls, step-ups, payee, amount, velocity and typing |
| `Scoring.ScoreHandset` | `fraud-ingest-server-go/scoring.go:657-858` | Device, SIM, install, integrity, attestation, network, clone and screenshot |
| `Scoring.ScoreProfile` | `fraud-ingest-server-go/scoring.go:860-1098` | Behaviour, remote access, location, bank flow, dormancy and hurry |
| `Scoring.ScanCalls` | `fraud-ingest-server-go/scoring.go:392-460` | A live call, or one that ended within five minutes before the transfer |
| `Scoring.ScanStepUps` | `fraud-ingest-server-go/scoring.go:462-484` | The last step-up result decides |
| `Scoring.ScanPayee` | `fraud-ingest-server-go/scoring.go:487-520` | A new payee, and one added and paid within 30 minutes |
| `Scoring.ScanAmount` | `fraud-ingest-server-go/scoring.go:567-587` | Against the median once there are three positive amounts, else against the cutoff |
| `Scoring.CountVelocity` | `fraud-ingest-server-go/scoring.go:595-614` | The transfers in the window that ends at the last one; `ScoreTable.VelocityIs` counts them on the log |
| `Scoring.ScanTyping` | `fraud-ingest-server-go/scoring.go:621-655` | Hesitation and paste once each, in log order |
| `Scoring.DetectRemote` | `fraud-ingest-server-go/scoring.go:883-935` | Reported, overlaid or at least three robotic strokes |
| `Scoring.Finish` | `fraud-ingest-server-go/scoring.go:1122-1177` | Capped sum, codes and threat label |
| `ScoringLaws.CodesDistinct` | `fraud-ingest-server-go/scoring.go:385-1101` | Over any event log no code is raised twice, every weight is positive, and the codes come in the order of their places |
| `ScoringLaws.ScoreRange` | `fraud-ingest-server-go/scoring.go:1122-1136` | 0 to 100, and 0 exactly when nothing was raised |
| `ScoreTable.SignalsAreTable` | `fraud-ingest-server-go/scoring.go:385-1101` | Over any log and payment a signal is raised exactly when the table raises its code with its weight; every condition is stated on the log, with its numbers |
| `ScoreTable.VelocityIs` | `fraud-ingest-server-go/scoring.go:595-614` | The velocity count is the number of transfers whose time is at or after that of every transfer less 60000 ms times the window, none if no transfer has a time |
| `ScoreTable.VelocityIff` | `fraud-ingest-server-go/scoring.go:589-619` | TXN_VELOCITY is raised exactly when that number reaches the threshold, with the base weight plus the slope for each beyond it |
| `ScoreTable.LabelIs` | `fraud-ingest-server-go/scoring.go:1137-1177` | Every session's label: coached, else a known user taken over, else mule conduct, else a new account, by the codes the table raises |
| `ScoreTable.SumIs` | `fraud-ingest-server-go/scoring.go:1122-1136` | The total is the sum of the weights, the reasons are the codes in order, and the score is capped at 100 |
| `ScoringLaws.VelocityOrderFree` | `fraud-ingest-server-go/scoring.go:589-619` | Reordering the log changes neither the count nor the velocity signal |
| `ScoringLaws.VelocityCountsTheLast` | `fraud-ingest-server-go/scoring.go:595-614` | The last transfer is always in its own window |
| `ScoringLaws.ConfirmedPayee` | `fraud-ingest-server-go/scoring.go:543-550` | A payment to a confirmed fraud destination scores 55 or more and is never routed to an identity check, whatever the bands |
| `ScoringLaws.ConfirmedPayeeStoppedIff` | `fraud-ingest-server-go/ingest.go:377-387` | Such a payment is always stopped exactly when a band starts at 55 or below |
| `ScoringLaws.ScamLabelIff` | `fraud-ingest-server-go/scoring.go:392-655` | A session is labelled a scam exactly when its log and payment show coaching: a confirmed or escalating payee, a paste or a rush for a new payee, or a call with a new payee or a large amount; nothing else in the log matters |
| `ScoringLaws.IdentityCheckIff` | `fraud-ingest-server-go/scoring.go:1103-1165` | The payer is sent to an identity check exactly when the decision is to step up and nothing shows coaching; a coached payer is warned instead |
| `Settings.DeepMerge` | `fraud-ingest-server-go/store_console.go:1079-1091` | The loop over the source, in any key order, computes the recursive overlay |
| `Settings.LeafOfMergeIff` | `fraud-ingest-server-go/store_console.go:1079-1091` | A merge shows a leaf exactly when the source has it, or the destination has it and the source is silent there |
| `Settings.MergeIdempotent` | `fraud-ingest-server-go/store_console.go:1079-1091` | Sending a patch twice stores what sending it once does |
| `Settings.MergeAssociatesIff` | `fraud-ingest-server-go/store_console.go:1079-1091` | Grouping three overlays either way agrees exactly when, wherever the second replaces an object of the first by a plain value and the third puts an object back, the third covers every key of the first |
| `Settings.TenantSettings.GetSettings` | `fraud-ingest-server-go/store_console.go:1095-1124` | Stored over defaults, with the ingestion count filled in |
| `Settings.TenantSettings.PatchSettings` | `fraud-ingest-server-go/store_console.go:1128-1152` | Alone, stores the stripped patch over what is stored and shows the result |
| `Settings.TenantSettings.ReadStored` | `fraud-ingest-server-go/store_console.go:1128-1137` | The statement that reads the stored tree |
| `Settings.TenantSettings.Save` | `fraud-ingest-server-go/store_console.go:1138-1150` | The statement that writes the whole merged tree |
| `Settings.RacedPatchSurvivesIff` | `fraud-ingest-server-go/store_console.go:1128-1152` | Of two patches that both read first, a setting only the earlier writer made is shown at the end iff it had been stored before, or is a default nothing stored covers |
| `Settings.PatchShows` | `fraud-ingest-server-go/store_console.go:1128-1152` | Every setting in a patch is what is then shown, facts about the tenant aside |
| `Settings.PatchKeepsTheRest` | `fraud-ingest-server-go/store_console.go:1128-1152` | A setting the patch does not cover, or covers only with a fact about the tenant, is shown unchanged |
| `Settings.DerivedNeverStored` | `fraud-ingest-server-go/store_console.go:1139-1143` | No run of patches ever stores the tenant's identity or the ingestion count |
| `Settings.IngestionIsLive` | `fraud-ingest-server-go/store_console.go:1095-1124` | Whatever was patched, the count shown is the live one |
| `Settings.StripIff` | `fraud-ingest-server-go/store_console.go:1139-1143` | Stripping a patch takes out the two facts about the tenant and nothing else |
| `Settings.ResolveRisk` | `fraud-ingest-server-go/store_console.go:971-1029` | Bands and velocity dials from the stored tree; an insane pair of bands falls back to the defaults |
| `Settings.BandsFrom` | `fraud-ingest-server-go/store_console.go:992-1005` | The bands are the whole parts of the numbers stored at risk, bands, stepUp and hold, with 55 and 85 for what is missing, and 55 and 85 both when the pair makes no sense |
| `Settings.DialsFrom` | `fraud-ingest-server-go/store_console.go:1006-1019` | Each velocity dial is the whole part of the positive number stored under its own name, else 10, 4, 20 and 15 |
| `Settings.ResolveBands` | `fraud-ingest-server-go/store_console.go:992-1005` | The tenant's bands, or the defaults when they are insane |
| `Settings.ResolveVelocity` | `fraud-ingest-server-go/store_console.go:1006-1019` | Each velocity dial from a positive number, else its default |
| `Settings.VelocityConfig` | `fraud-ingest-server-go/scoring.go:139-154` | Every resolved dial is positive: the tenant's if it is, else 10, 4, 20 or 15; nothing changes iff all were positive |
| `Settings.BandsAlwaysWork` | `fraud-ingest-server-go/store_console.go:1000-1004` | Whatever is stored, a score of 100 is held, a score of 0 passes, and some score steps up |

## Left out

- HTTP, gzip, JSON syntax, logging, SQL text and the database engine; the ORDER BY of the claim and of the key load
- Cryptography: signatures are equal only for equal key and body; key encryption and key derivation are not modelled
- The stated aggregates assume positive timestamps; `IngestLaws.StartIsEarliestRow` says what happens otherwise
- One `now` serves all events of a batch, where the source reads the clock per event without a usable timestamp
- A load of the key cache is one step, where the source reads two queries and stamps the time after them
- Suspended tenants, keys that do not decrypt, and the operator command that revokes without the guard
- Go's allocation from a declared CBOR count, which can panic for huge counts, and the UTF-8 validity of text strings
- Rounding in geohash arithmetic (the midpoints are dyadic) and NaN coordinates; a fractional precision
- Scoring.ScoreSession: standard deviations, medians, cadence ratios and great-circle speed are inputs, and labels and evidence texts are left out, because they need square roots, sorting or trigonometry
- Scoring.Finish: 64-bit overflow of the sum, reachable only with absurd velocity dials
- Settings.ResolveRisk: does not model the per-currency cutoff table, a single lookup after an overlay
- Settings.DeepMerge: a merged subtree is a copy, so the sharing between source and destination maps is not captured
- Settings.GetSettings with stored bytes that are not JSON, which then count as nothing stored
- AndroidSession.SessionManager.MintCompleted: the session check and the four writes are one step, where the source leaves a window between them
- Events built on Android's worker thread read the session when they run; a step reads and enqueues at once
- Disk failures in either queue, which the source ignores, and the file of the Android queue across restarts
- The debounce timer of the Expo snapshot: a snapshot may happen at any time, which covers every timer
- Payee reputation and payment history queries, counterparty types and the ledger detectors
- The frozen Node server, the web SDK, the intervention sheet, the native collectors, scripts and documentation
- Console read views, cases, login, invitations, roles and audit: thin queries or single checks
