# Chat backend: history, delivery, keys and sessions

A Dafny model of the stateful parts of the chat backend and proofs about them. Tables and Redis
structures are maps, sets, multisets and sequences; handlers are methods over them; where
connections, workers or requests interleave, a state machine takes one statement as one step and
the theorems speak about all its runs.

| file | content |
|---|---|
| `Models.dfy`, `Runs.dfy` | the messages and events that travel between client, relay and worker; runs of a state machine |
| `History.dfy`, `Grouping.dfy`, `Batching.dfy` | one batch of the event worker; the grouped form against handling events one at a time, for every list; batch boundaries, replay, origins of rows |
| `ReadStates.dfy`, `HistoryDb.dfy` | the three writers of read states; `process_events_batch` and `mark_read_handler` as methods on the tables |
| `Ledger.dfy`, `WorkerProtocol.dfy`, `WorkerReadStates.dfy`, `WorkerOverlap.dfy`, `WorkerLoop.dfy` | the books of all writes and the crash-free runs over them; the stream consumer with crashes at any point while handlers mark and users register; what replays do to read states; two runs in which a recovery shows; the worker's loops over a connection that stays up |
| `KeyTables.dfy`, `KeyStore.dfy`, `KeyProtocol.dfy`, `KeyOverlap.dfy` | key tables and the exact allocation of a claim; the endpoints; all interleavings of login, upload, claim and deletion; a run that returns a key twice |
| `SessionCache.dfy`, `SessionStatements.dfy`, `Presence.dfy`, `PresenceReports.dfy`, `OfflineQueue.dfy` | the Redis session cache, serially and statement by statement; the presence set; the offline queue |
| `Routing.dfy`, `RelayProtocol.dfy`, `RelayDelivery.dfy`, `RelayGuarantees.dfy`, `RelayNoLoss.dfy`, `RelayOverlap.dfy`, `RelayNode.dfy` | frames, the relay over many connections, its invariants, drains and receipts, whom a PUBLISH reaches and why no message is lost, a run with two receipts for one message, the relay's own code |
| `EndToEnd.dfy`, `StoredFrames.dfy` | from the stored row back to a client's frame, and from the frame forward to its row |

## Assumptions

- Each SQL or Redis statement is atomic, and so is each worker and upload transaction. Two exceptions
  are split further: the drain's SELECT and DELETE are separate steps although they share a transaction,
  and so are the sub-select of a claim's UPDATE and the update of the rows it has picked, because under
  READ COMMITTED two overlapping UPDATEs may pick the same row and `WHERE id IN (...)` does not look at
  `consumed` again. Where the UPDATE is atomic, `KeyProtocol.AtomicUpdatesFind` applies.
- `dialog_read_states` has three writers. The worker's crashes are interleaved with the statements of
  the other two (`Mark` is the upsert of a marking handler, `Stamp` its UPDATE of read times) and with
  registrations. Users are registered and never deleted, as in the code.
- Fresh UUIDs are never reused: session, connection and row ids are new when they are minted.
- One worker runs, and an XACK that is issued takes effect.
- Queue timestamps are distinct, so that the order by `created_at` is the order of saving.
- Tokens are minted only by login, so that a caller's user and session id belong together.
- In the relay no storage statement fails. A connection may lack the Redis connection for events
  (`logs` is false), and any running connection may be closed between two of its steps.
- Text that has to be parsed or decoded is kept in its parsed form (`None` when it does not parse);
  Base64 validation is a parameter.

## Where the code keeps less than it promises

- docs/api.md:106 promises one one-time key per device and claim. The UPDATE has a single limit for
  the whole page (api/src/e2ee.rs:264-278), so a device with spare keys can starve a later one
  (`KeyTables.SpareKeyStarves`). `KeyTables.GreedyAllocation` gives the exact allocation and
  `KeyTables.OnePerDeviceIff` the exact condition under which the promise is kept.
- docs/api.md:138 says that `one_time_keys_remaining` is the number before the claim; the code counts
  after it (api/src/e2ee.rs:291-306), and so does the model.
- A batch that is committed again after a crash can undo a mark made in between: the read state goes
  back to the batch's receipt (`WorkerOverlap.ReplayUndoesMark`);
  `WorkerReadStates.ReadStatesAgreeIff` says exactly when that shows.
- A batch that failed because a user was not registered can be committed by the recovery after a crash,
  when the user has registered in between (`WorkerOverlap.CommittedLate`); the run without the crash has
  dropped it. `WorkerProtocol.CrashFreeIff` says exactly when the messages differ from that run.
- The grouped form of a batch agrees with handling events one at a time only on some lists;
  `Grouping.AgreesIff` gives the exact condition for every list, and two lemmas give concrete lists that
  differ.
- Delivery receipts are not unique when two drains of one user overlap (`RelayGuarantees.OverlapDoubles`);
  `RelayOverlap.ReceiptedTwice` is such a run from the start, and `RelayGuarantees.ReceiptedOnceIff` gives
  the exact condition.
- A key can be taken by two UPDATEs that overlap, and then be returned by two claims
  (`KeyOverlap.ReturnedTwice`); `KeyProtocol.SpentOnceIff` says exactly when a key is taken twice.
- A session can be cached again after its logout: exactly when a login or connection that found it valid
  before the UPDATE does its SET after the DEL (`SessionStatements.CachedAfterLogoutIff`).
- A batch with one row that violates a foreign key is acknowledged and dropped as a whole
  (api/src/worker.rs:110-120); `History.BatchFailsIff` says exactly which batches these are.
- An online period can go unannounced when statements interleave (`Presence.OnlineUnannounced`);
  `Presence.PeriodAnnouncedIff` says exactly when it is announced, by whichever add. A leaving can be
  reported and published twice (`Presence.OfflineTwice`); `Presence.ReportedTwiceIff` says exactly when.

## Model

| member | source | states |
|---|---|---|
| `History.First` | api/src/worker.rs:192-265 | the first event of a kind that introduces an id: no earlier one does |
| `History.Last` | api/src/worker.rs:286-303 | the last event that sets a read state: no later one does |
| `History.Winner` | api/src/worker.rs:192-238 | the event whose row a batch keeps for an id exists exactly when some event introduces the id, and introduces it |
| `History.InsertedRow` | api/src/worker.rs:192-214 | a grouped insert with ON CONFLICT DO NOTHING keeps every stored row and otherwise stores the first row given for an id |
| `History.StoredRow` | api/src/worker.rs:192-238 | after both message inserts an id holds its old row, else the row of its winner; nothing else is stored |
| `Grouping.FoldMessage` | api/src/worker.rs:192-238 | one at a time, a message is the row of the first event with its id whose users exist, and never changes after any prefix |
| `Grouping.FoldRows` | api/src/worker.rs:192-265 | one at a time, any list keeps the tables valid and stores the rows of the events whose users exist |
| `Grouping.FoldCiphertexts` | api/src/worker.rs:239-263 | one at a time, exactly the events whose insert succeeds leave their ciphertext rows |
| `History.FoldKnown` | api/src/worker.rs:192-265 | with known users, handling events one at a time never fails and keeps the tables valid |
| `Grouping.FoldRead` | api/src/worker.rs:267-304 | one at a time, a read state is what the last receipt set whose message was stored before |
| `History.MarkAllRead` | api/src/worker.rs:286-303 | the grouped receipts change read states only, and leave each as the last receipt for it says |
| `History.MarkAllValid` | api/src/worker.rs:267-304 | the receipts fail exactly when one for a stored message names an unknown reader, and keep the invariant |
| `History.BatchFailsIff` | api/src/worker.rs:190-307 | a batch fails exactly when a row it would add, or a receipt it would apply, names an unknown user; otherwise the tables stay valid |
| `History.BatchRead` | api/src/worker.rs:267-304 | after a batch each read state is that of the last receipt whose message is then stored |
| `Grouping.SameRowsIff` | api/src/worker.rs:153-265 | for a batch whose rows can be inserted, the messages agree exactly when the batch and one at a time keep the same row for every new id |
| `Grouping.ReadAt` | api/src/worker.rs:267-304 | given equal messages, a read state agrees exactly when the last receipt that hits it came after its message |
| `Grouping.EarlyCoveredIff` | api/src/worker.rs:267-304 | all last hits are in time exactly when each receipt that precedes its message is covered by a later one |
| `Grouping.SuccessAgreesIff` | api/src/worker.rs:146-308 | a batch that succeeds equals one-at-a-time exactly when the rows are the same, no failing event has ciphertexts, and each early receipt is covered |
| `Grouping.FailureAgreesIff` | api/src/worker.rs:110-120 | a batch that fails equals one-at-a-time exactly when that stores nothing, adds no ciphertexts and leaves the read states |
| `Grouping.AgreesIff` | api/src/worker.rs:146-308 | for every list of events, unknown users included, exactly when the grouped insert leaves what handling the events one at a time leaves |
| `Batching.WellOrderedAgrees` | api/src/worker.rs:146-308 | on well-ordered lists the grouped insert equals handling events one at a time, ciphertexts included |
| `Batching.ShadowingDiffers` | api/src/worker.rs:192-238 | a concrete list with a shared id on which the two differ |
| `Batching.EarlyReceiptDiffers` | api/src/worker.rs:267-304 | a concrete list with an early receipt on which the two differ |
| `Batching.WellOrderedSplit` | api/src/worker.rs:43-142 | a well-ordered list cut anywhere is well ordered in both parts |
| `Batching.BoundariesDoNotMatter` | api/src/worker.rs:43-142 | any cutting of a well-ordered list into batches gives the tables of one-at-a-time and of one batch |
| `Batching.BatchBesides` | api/src/worker.rs:240-263 | a batch adds exactly its own ciphertext rows, and depends neither on ciphertexts nor on read times |
| `Batching.BatchByMessages` | api/src/worker.rs:190-307 | whether a batch fails and which messages it leaves depends on users and messages alone |
| `Batching.CommittedUndisturbed` | api/src/worker.rs:286-303 | right after a commit the batch's last receipts are all in place |
| `Batching.Replay` | api/src/worker.rs:146-308 | committing a batch again, on any later tables with the messages it left, changes no message and repeats its ciphertexts; a read state stays exactly when the batch's last receipt for it says what is there |
| `Batching.MessageOrigin` | api/src/worker.rs:190-238 | every stored message is the winner's row of the first successful batch that introduces its id |
| `History.DeviceRowCount` | api/src/worker.rs:240-252 | a row occurs as often as its ciphertext is sent to its device under that message id, and not at all under another id |
| `History.CiphertextCount` | api/src/worker.rs:231-252 | over a whole batch each row occurs exactly as often as the events send it |
| `ReadStates.StepGrows` | api/src/lib.rs:652-765 | every statement of a marking handler and every batch keeps the invariant, every message unchanged and every read state in place |
| `ReadStates.ReadStatesPointToPeers` | api/src/lib.rs:652-765 | along every interleaving of batches, registrations and the handlers' statements each read state points to a stored message sent by its peer |
| `ReadStates.HandlerSteps` | api/src/lib.rs:652-765 | a handler's SELECT, upsert and UPDATE without interference do what the whole request does |
| `ReadStates.MarkOneOutcomes` | api/src/lib.rs:660-719 | the exact condition of each outcome of marking one message, and what success changes; every other outcome changes nothing |
| `ReadStates.MarkDialogOutcomes` | api/src/lib.rs:720-764 | the exact condition of each outcome of marking a dialog, which stamps exactly the messages the peer has sent to the user |
| `ReadStates.KnownUsersMark` | api/src/lib.rs:652-765 | in tables with known users only, marking a message of the peer succeeds |
| `HistoryDb.Database.ProcessEventsBatch` | api/src/worker.rs:146-308 | a batch is written as specified or, on an error, nothing is |
| `HistoryDb.Database.WriteBatch` | api/src/worker.rs:190-307 | the statements of the transaction, empty groups skipped, have the specified meaning |
| `HistoryDb.Database.WriteEncrypted` | api/src/worker.rs:216-265 | encrypted rows and then the ciphertext rows with valid device ids |
| `HistoryDb.Database.Partition` | api/src/worker.rs:149-188 | the three lists hold the events of each kind in stream order |
| `HistoryDb.Database.CollectCiphertexts` | api/src/worker.rs:239-252 | each row as often as an encrypted event sends that ciphertext to that device, and no others |
| `HistoryDb.Database.WriteReceipts` | api/src/worker.rs:267-304 | resolving the senders once and then upserting equals resolving each receipt on its own |
| `HistoryDb.Database.MarkReadHandler` | api/src/lib.rs:652-765 | marking one message or the whole dialog, with every outcome |
| `WorkerProtocol.AckedUnparseable` | api/src/worker.rs:95-103 | the first XACK leaves exactly the parseable entries pending |
| `WorkerProtocol.ParseableEvents` | api/src/worker.rs:71-93 | the parseable entries carry exactly the events, one each |
| `WorkerProtocol.OwnEvents` | api/src/worker.rs:71-93 | for every reply the j-th event is the value of its j-th parseable entry, which is the entry at the j-th position that parses |
| `WorkerProtocol.NoneLeftOut` | api/src/worker.rs:71-93 | every position of a reply that parses is among these positions, which are in order and taken once |
| `WorkerProtocol.RangeEntries` | api/src/worker.rs:43-93 | over the first entries of the stream these are exactly the parseable ones, in order, each with its own event |
| `Ledger.AttemptOk` | api/src/worker.rs:105-129 | a transaction, first or repeated, keeps the books: messages as in the crash-free run over the log, ciphertexts once per commit, a committed batch absorbed |
| `Ledger.StaysAbsorbed` | api/src/worker.rs:105-129 | what a batch has committed stays in the tables when users come and read states change, so that writing it again succeeds and brings no message |
| `Ledger.AttemptCrashFreeIff` | api/src/worker.rs:105-129 | a transaction takes the messages away from the crash-free run exactly when it commits late a batch that brings messages |
| `Ledger.LogOrigin` | api/src/worker.rs:190-238 | every message of a crash-free run is the winner's row of the batch that brought its id |
| `Ledger.CommittedCount` | api/src/worker.rs:239-263 | over all batches a row is written as often as the batches send it, counted once per commit |
| `WorkerProtocol.StepKeeps` | api/src/worker.rs:43-142 | every step, crashes, lost replies, marks and registrations included, keeps the invariant |
| `WorkerProtocol.CrashTolerance` | api/src/worker.rs:43-142 | in every run, marks and registrations included, the delivered batches joined hold for each parseable entry of the stream its own event, in order and once; the messages are those of the crash-free run over the log, which holds each committed batch once in order; each ciphertext row is there once per commit, no batch is passed over, and the pending list holds at most the batch in flight |
| `WorkerProtocol.CommittedIff` | api/src/worker.rs:105-129 | a batch has been committed exactly when one of its transactions found that it can be inserted, and tried exactly when it has had one |
| `WorkerProtocol.CrashFreeIff` | api/src/worker.rs:43-142 | up to any point the messages have been those of the run in which every batch has one transaction exactly when no recovery committed a batch that had failed and brings messages |
| `WorkerProtocol.SameCrashFreeRun` | api/src/worker.rs:43-142 | without such late commits the crash-free run over the log is the one over the first transactions |
| `WorkerReadStates.CoupledStepIff` | api/src/worker.rs:105-129 | a step keeps the read states those of the crash-free run exactly when it is no replay that finds a receipt overwritten |
| `WorkerReadStates.ReadStatesAgreeIff` | api/src/worker.rs:43-142 | up to any point the read states have been those of the crash-free run over batches and marks exactly when every replay so far found its last receipts in place |
| `WorkerReadStates.MarksApartAgree` | api/src/worker.rs:43-142 | as long as no mark contradicts a receipt of a committed, unacknowledged batch, replays never show |
| `WorkerReadStates.LogOneByOne` | api/src/worker.rs:43-142 | on a well-ordered stream batches may be taken apart into events, whatever is marked and whoever registers in between |
| `WorkerReadStates.SettledHistory` | api/src/worker.rs:43-142 | with nothing pending and each batch's users there when it was written, a well-ordered stream leaves the messages of handling it one event at a time, and the read states too as long as marks stay apart |
| `WorkerOverlap.ReplayUndoesMark` | api/src/worker.rs:105-129 | a run in which a replay sets a read state back behind a mark |
| `WorkerOverlap.CommittedLate` | api/src/lib.rs:184-188 | a run in which a registration between crash and recovery lets a failed batch be committed |
| `WorkerLoop.AckedPrefix` | api/src/worker.rs:95-129 | acknowledging a reply removes exactly its entries from the pending list |
| `WorkerLoop.ReplySteps` | api/src/worker.rs:66-131 | the protocol steps of a reply, uninterrupted, do what the method for a reply does |
| `WorkerLoop.BatchesAppend` | api/src/worker.rs:43-142 | a run of batches continues where an earlier one stopped |
| `WorkerLoop.Consumer.Parse` | api/src/worker.rs:71-93 | splits a reply into the ids that do and do not parse, and gives for each that does the event of its own entry |
| `WorkerLoop.ChunksHoldAll` | api/src/worker.rs:43-136 | a pending list is read in ceil(p/100) replies of at most 100, whose batches joined are the events of the list in order |
| `WorkerLoop.Consumer.HandleReply` | api/src/worker.rs:66-131 | every entry of a reply leaves the pending list, whether it parses and whether its batch is written |
| `WorkerLoop.Consumer.Recover` | api/src/worker.rs:43-136 | p pending entries are emptied in ceil(p/100) reads and one empty one, batch by batch in order |
| `WorkerLoop.Consumer.Poll` | api/src/worker.rs:43-136 | a read of new entries takes at most 100 in order, writes them and leaves nothing pending |
| `KeyTables.InsertedKey` | api/src/e2ee.rs:162-179 | an upload leaves old keys as they are, and a new key id gets the public key given first for it |
| `KeyTables.FirstGivenAt` | api/src/e2ee.rs:162-179 | the public key given first for an id is that of the first position with the id |
| `KeyTables.UploadValid` | api/src/e2ee.rs:117-184 | an upload keeps the key-table invariant |
| `KeyTables.JoinIsPerDevice` | api/src/e2ee.rs:235-247 | the join on the device id alone yields each device of the target once, with its own user's signed key |
| `KeyTables.DeletedUnseen` | api/src/e2ee.rs:430-434 | after a deletion no claim sees the device or its keys, and every claim sees the others as before |
| `KeyTables.SelectedBelow` | api/src/e2ee.rs:264-278 | among the devices below any bound the UPDATE takes as many keys as there are, up to the limit |
| `KeyTables.GreedyAllocation` | api/src/e2ee.rs:264-278 | in device order each device gives the smaller of what it has and what is left of the shared limit |
| `KeyTables.OnePerDeviceIff` | docs/api.md:106 | one key per device is popped exactly when no device but the last has a spare key, and the last only when all others give one |
| `KeyTables.SpareKeyStarves` | api/src/e2ee.rs:264-278 | two devices, three keys: every claim leaves the second device without a key |
| `KeyTables.RemainingAfter` | api/src/e2ee.rs:291-306 | the count after the claim is what the device had less what was taken |
| `KeyStore.KeysFaultIff` | api/src/e2ee.rs:99-110 | the check of the one-time keys passes exactly when every id is in range and every key decodes |
| `KeyStore.FaultIff` | api/src/e2ee.rs:66-110 | the checks find no fault exactly when every field is in range and decodes |
| `KeyStore.FirstFault` | api/src/e2ee.rs:66-97 | the fault reported is that of the first check the request does not pass |
| `KeyStore.FirstKeyFault` | api/src/e2ee.rs:99-110 | a request that passes the checks of its fields gets the fault of its first bad one-time key, the id before the encoding |
| `KeyStore.PageBounds` | api/src/e2ee.rs:229-233 | a claim takes as many devices as its limit says, but at most 100 and 100 without a limit, and skips as many as its offset says, a negative one being none |
| `KeyStore.FirstOn` | api/src/e2ee.rs:318-321 | the key named for a device is one returned for it, and none only if none was |
| `KeyStore.Database.UploadKeys` | api/src/e2ee.rs:59-191 | accepts exactly the valid requests with a session id that parses, reports the first fault, and writes all keys or none: the device then has the identity key and the signed pre-key of the request, whatever it had before, and no other device's rows change |
| `KeyStore.Database.ConsumeKeys` | api/src/e2ee.rs:264-289 | marks a selection in device order as consumed, changes nothing else and returns it |
| `KeyStore.Database.FetchPage` | api/src/e2ee.rs:229-247 | some page of the join of the size that limit and offset give |
| `KeyStore.Database.BuildAnswers` | api/src/e2ee.rs:308-340 | each row's answer: its keys, one taken key if any, the keys left |
| `KeyStore.Database.ClaimKeys` | api/src/e2ee.rs:221-343 | page, UPDATE, count and answers of a claim, with its error outcomes |
| `KeyStore.Database.DeleteDevice` | api/src/e2ee.rs:404-450 | a valid session of the caller is deleted and no key row of it is left, every other row is unchanged and the invariant kept; otherwise nothing changes |
| `KeyStore.PageSize` | api/src/e2ee.rs:235-262 | a page has one row for each device on it |
| `KeyStore.AnswersMatchAllocation` | api/src/e2ee.rs:221-343 | a claim allocates greedily, and each answer names one of the target's taken keys exactly if any was taken and the keys left |
| `KeyStore.ClaimAfterUpload` | api/src/e2ee.rs:125-155 | after an upload the device is in the join of its user, and a claim that returns it answers with the identity key and the signed pre-key of that upload |
| `KeyProtocol.SpentNext` | api/src/e2ee.rs:264-289 | only an UPDATE spends keys, and it spends the picked rows that are still there |
| `KeyProtocol.StepKeeps` | api/src/e2ee.rs:59-450 | every statement of every request keeps the invariant |
| `KeyProtocol.SpentOnceIff` | api/src/e2ee.rs:264-278 | no key has been taken twice up to any point exactly when every UPDATE found the rows it had picked unconsumed |
| `KeyProtocol.AtomicUpdatesFind` | api/src/e2ee.rs:264-278 | an UPDATE that runs as one step finds its rows unconsumed |
| `KeyProtocol.SingleUse` | api/src/e2ee.rs:264-278 | over every run whose UPDATEs find their rows unconsumed no device and key id is returned twice |
| `KeyOverlap.ReturnedTwice` | api/src/e2ee.rs:264-278 | for any key a run in which two overlapping UPDATEs return it twice |
| `KeyProtocol.KeyRowsOwned` | migrations/20260416000004_e2ee_keys.sql:1-30 | in every reachable state key rows belong to their session's user, and a claim sees each device once with that user's keys |
| `KeyProtocol.OneTimeKeysKept` | api/src/e2ee.rs:162-340 | over every run the rows ever inserted for a live device are the unconsumed and the spent ones |
| `KeyProtocol.OneTimeKeysConserved` | api/src/e2ee.rs:162-340 | when UPDATEs find their rows unconsumed, unconsumed, returned, and consumed but not returned keys of a live device add up to the inserted ones |
| `KeyProtocol.StepSettles` | api/src/e2ee.rs:162-179 | no step changes a live key's public key or revives it |
| `KeyProtocol.SessionsStayDeleted` | api/src/e2ee.rs:430-434 | a deleted session never comes back |
| `KeyProtocol.NeverRevived` | migrations/20260416000004_e2ee_keys.sql:22-30 | over every run a live key keeps its public key and stays consumed once it is |
| `KeyProtocol.RowsOfLastUpload` | api/src/e2ee.rs:125-155 | over every run a live device has the identity key and the signed pre-key of its last upload, and none before its first |
| `SessionCache.StepCaches` | relay/src/lib.rs:107-133 | which sessions are cached and which are valid after an operation: a login or a connection admitted by the table whose SET took effect caches its session, expiry and a cleared logout remove it |
| `SessionCache.StepAgreesIff` | api/src/lib.rs:767-787 | an operation keeps the cache in agreement exactly when it is no logout that fails to clear a cached session and no deletion of one |
| `SessionCache.CacheDecidesAsTable` | relay/src/lib.rs:95-133 | over every serial run without such an operation the cached check admits exactly the connections the table alone would |
| `SessionStatements.StaleIff` | relay/src/lib.rs:107-125 | over every interleaving of statements a session is cached although invalid exactly when it was invalidated and the last SET for it has not been cleared |
| `SessionStatements.CachedAfterLogoutIff` | relay/src/lib.rs:107-125 | after a logout a session is cached exactly when a handler that found it valid before the UPDATE did its SET after the DEL |
| `SessionCache.Service.LoginHandler` | api/src/lib.rs:239-274 | a session row, then its cache entry; agreement is kept |
| `SessionCache.Service.WsHandler` | relay/src/lib.rs:87-133 | cache first, then the table, whose answer fills the cache; in agreement the decision is the table's |
| `SessionCache.Service.LogoutHandler` | api/src/lib.rs:767-787 | the session is invalid afterwards, and the cache agrees exactly if it was cleared of it |
| `Presence.Repository.AddConnection` | shared/src/repository.rs:146-159 | reports the first connection exactly when there was none |
| `Presence.Repository.RemoveConnection` | shared/src/repository.rs:161-174 | reports the last connection exactly when it was the only one |
| `Presence.Repository.IsOnline` | shared/src/repository.rs:176-183 | online exactly when some connection is there |
| `Presence.PublishedIff` | relay/src/lib.rs:153-170 | an operation publishes exactly when the user comes or goes, and says which |
| `Presence.UpdatesAlternate` | relay/src/lib.rs:511-531 | with whole operations the updates alternate from online, and the last tells whether the user is online |
| `Presence.StepKeeps` | shared/src/repository.rs:145-174 | every single statement and publish keeps the invariant |
| `Presence.FirstReports` | shared/src/repository.rs:145-174 | over every interleaving an add that reports first saw only itself, and between two such reports the earlier connection was removed |
| `Presence.LastReports` | shared/src/repository.rs:161-174 | over every interleaving a remove that reports last saw the empty set, and of two such reports the later one's own connection came in between exactly when it left in between |
| `Presence.AddReportsIff` | shared/src/repository.rs:151-157 | the SCARD of any add reports first exactly when everyone else who has come has left again |
| `Presence.RemoveReportsIff` | shared/src/repository.rs:166-172 | the SCARD of any remove reports last exactly when everyone who has come has left again |
| `Presence.PeriodAnnouncedIff` | relay/src/lib.rs:153-170 | an online period is announced exactly when some add of it does its SCARD when all others have left |
| `Presence.ReportsAgain` | shared/src/repository.rs:166-172 | after a last report, a remove before the next SADD reports last again exactly if it was past its SREM |
| `Presence.ReportedTwiceIff` | relay/src/lib.rs:511-531 | a leaving is reported twice exactly when a second remove, past its SREM, does its SCARD before the next SADD |
| `Presence.SerialAlternates` | relay/src/lib.rs:511-531 | when operations with their publishes do not overlap, updates alternate from online and the last tells whether the user is online |
| `Presence.OfflineTwice` | relay/src/lib.rs:511-531 | a run that publishes offline twice and nothing in between |
| `Presence.OnlineUnannounced` | shared/src/repository.rs:151-157 | a run that leaves a user online, nobody in the middle of an operation, and nothing published |
| `PresenceReports.ReportsPublished` | relay/src/lib.rs:153-170 | over every interleaving the first reports are the published online updates and those about to be published, and likewise for last reports and offline updates |
| `OfflineQueue.DecodedMembers` | shared/src/repository.rs:79-93 | exactly the payloads that decode are returned |
| `OfflineQueue.OwnPayloads` | shared/src/repository.rs:76-93 | the j-th payload is that of the row at the j-th position that decodes |
| `OfflineQueue.NoRowLeftOut` | shared/src/repository.rs:76-93 | every row that decodes is at one of these positions, which are in order |
| `OfflineQueue.DecodedPositions` | shared/src/repository.rs:79-93 | two payloads come out in the order of their rows |
| `OfflineQueue.Queue.SaveOfflineMessage` | shared/src/repository.rs:44-60 | adds one row with a new id at the end |
| `OfflineQueue.Queue.Decode` | shared/src/repository.rs:76-93 | splits off the decoded payloads and the ids of their rows |
| `OfflineQueue.Queue.FetchAndDeleteOfflineMessages` | shared/src/repository.rs:62-106 | returns the user's decodable payloads in save order and deletes exactly their rows |
| `OfflineQueue.Survivors` | shared/src/repository.rs:95-101 | a drain leaves the rows of others and the undecodable ones, and no others |
| `Routing.RouteCarries` | relay/src/lib.rs:273-373 | every frame but a watch goes to the user it names, from its sender, as a message of its own kind from which the frame can be read back; all but typing may be queued, and exactly texts, files and encrypted messages ask for a receipt, under their own id |
| `Routing.RouteAgreesWithDrain` | relay/src/lib.rs:195-200 | the receipt a later drain decides on from the message agrees with the flags, sender and id set when the frame was routed |
| `RelayProtocol.ItemsKeep` | relay/src/lib.rs:268-274 | every accepted frame stays tied to a connection of its sender and to its routing |
| `RelayProtocol.RowsKeptKeep` | shared/src/repository.rs:69-104 | a row leaves the queue only if it decodes and a drain for its recipient returned it |
| `RelayProtocol.FatesKeep` | relay/src/lib.rs:441-485 | published and queued exclude each other and cover every finished storable item |
| `RelayDelivery.NewReceiptOk` | relay/src/lib.rs:189-220 | a receipt issued by a drain or a publish goes to the sender and names recipient and id |
| `RelayDelivery.ReceiptsKeep` | relay/src/lib.rs:189-220 | no returned or published message is forgotten without a receipt |
| `RelayDelivery.DecodedSentInOrder` | shared/src/repository.rs:71-93 | decoded rows hold each connection's items in the order it sent them |
| `RelayDelivery.OrderKeeps` | relay/src/lib.rs:268-269 | queue, selections and hand-off lists stay in order at every step |
| `RelayDelivery.ReceiptsOnceKeeps` | relay/src/lib.rs:189-220 | every step but a DELETE that misses selected rows counts each message at most once |
| `RelayDelivery.MissCountsTwice` | shared/src/repository.rs:95-101 | a DELETE that misses a selected row counts its message twice |
| `RelayGuarantees.StepGood` | relay/src/lib.rs:149-534 | every step of every connection keeps all invariants |
| `RelayNoLoss.SubscribersIff` | relay/src/lib.rs:232-246 | at any step of a run the subscribers of a user are exactly the connections that were opened for the user, have subscribed at an earlier step and have not been closed since |
| `RelayNoLoss.AcceptedFrom` | relay/src/lib.rs:268-274 | every accepted item is the frame of one step that accepts, sent by the user its connection was opened for and routed as the frame says |
| `RelayNoLoss.PublishReachesIff` | relay/src/lib.rs:441-449 | a PUBLISH hands its item, for the first time, to exactly the connections of the user the frame names that have subscribed before and are still open; the item counts as published exactly when there is one |
| `RelayNoLoss.PublishedOnce` | relay/src/lib.rs:441-449 | no item is published in two steps |
| `RelayNoLoss.PublishedIff` | relay/src/lib.rs:441-485 | from its PUBLISH on an item counts as published exactly if that PUBLISH was heard |
| `RelayNoLoss.LoggedFramesInStream` | relay/src/lib.rs:375-439 | once a frame is past its XADD on a connection that logs, its event is in the stream |
| `RelayNoLoss.ReturnedHandedKeeps` | relay/src/lib.rs:189-220 | what a drain has returned is handed to its connection or still in its hand, after every step |
| `RelayNoLoss.NoLoss` | relay/src/lib.rs:441-485 | over all interleavings every finished frame had exactly one PUBLISH; it is published exactly when some connection of the user it names had subscribed before that step and was open, and all those got it; otherwise, unless it is a typing frame, it was queued, and is in the queue of that user, in the hand of a drain for the user, or was handed to a connection of the user |
| `RelayNoLoss.FramesAccounted` | relay/src/lib.rs:268-509 | every accepted frame is finished, in the hand of its open connection, or was in its hand when the connection closed |
| `RelayGuarantees.DeletedRowsWereReturned` | shared/src/repository.rs:69-104 | a row is gone only if it decodes and a drain for its recipient returned it |
| `RelayGuarantees.SelectionStays` | shared/src/repository.rs:71-101 | a drain keeps its selection until its DELETE, whatever happens in between |
| `RelayGuarantees.LaterRowsSurvive` | shared/src/repository.rs:69-104 | a row saved after a drain's SELECT survives that drain's DELETE |
| `RelayGuarantees.DrainsInOrder` | shared/src/repository.rs:71-93 | a drain returns its decodable rows in save order and each connection's messages in sending order |
| `RelayGuarantees.ReceiptsAreTrue` | relay/src/lib.rs:189-220 | every receipt goes to the sender of a finished message, names recipient and id, and follows a hand-off |
| `RelayGuarantees.NoneForgotten` | relay/src/lib.rs:451-472 | the finished messages that ask for a receipt are those receipted, in a drain's hand, or queued |
| `RelayGuarantees.ReceiptedOnceIff` | relay/src/lib.rs:189-220 | no message is counted twice up to a point exactly when every DELETE before it found its rows |
| `RelayGuarantees.OverlapDoubles` | shared/src/repository.rs:69-104 | from every state with the invariants two overlapping drains of one user both take every queued message in hand |
| `RelayGuarantees.ReceiptsConserved` | relay/src/lib.rs:189-220 | when every DELETE finds its rows, receipts issued, messages in the hand of a drain and messages queued add up to the finished ones as multisets |
| `RelayGuarantees.ReceiptsConservedApart` | relay/src/lib.rs:176-220 | so they do when the drains of one user do not overlap |
| `RelayOverlap.ReceiptedTwice` | relay/src/lib.rs:176-220 | a run from the start in which one message gets two receipts |
| `RelayGuarantees.DrainsApartFind` | relay/src/lib.rs:176-186 | when the drains of one user do not overlap, every DELETE finds its rows and receipts are unique |
| `RelayNode.HandledAtOnce` | relay/src/lib.rs:375-485 | a frame without interference: recorded, and published to the subscribers of the user it names or else queued for that user unless it is a typing frame, never both, with a receipt under its id exactly when a message was published |
| `RelayNode.HandAllAtOnce` | relay/src/lib.rs:188-220 | the hand-off loop gives the connection the whole list and each sender its receipt, in order |
| `RelayNode.DrainAtOnce` | relay/src/lib.rs:175-220 | SELECT, DELETE and hand-offs without interference, in terms of the queue before |
| `RelayNode.Relay.DrainOnConnect` | relay/src/lib.rs:175-229 | exactly the user's decodable rows leave the queue and are handed to the connection in save order, each with its receipt; all invariants are kept |
| `RelayNode.Relay.SelectAndDelete` | shared/src/repository.rs:69-104 | the drain's transaction is SELECT followed by DELETE |
| `RelayNode.Relay.HandOffAll` | relay/src/lib.rs:188-220 | the loop hands off everything pending |
| `RelayNode.Relay.HandOffOne` | relay/src/lib.rs:189-220 | one message to the connection and its receipt to the sender |
| `RelayNode.Relay.HandleFrame` | relay/src/lib.rs:273-485 | one frame does the protocol's steps, has the effect above and keeps all invariants |
| `RelayNode.Relay.Record` | relay/src/lib.rs:375-439 | accepting a frame and adding its event are the protocol's first two steps |
| `RelayNode.Relay.Deliver` | relay/src/lib.rs:441-485 | the branch on the receivers takes the protocol's PUBLISH and then its receipt or its INSERT |
| `RelayNode.Relay.PublishMessage` | relay/src/lib.rs:444-449 | the protocol's PUBLISH, telling whether a subscriber was reached |
| `EndToEnd.StreamTraces` | relay/src/lib.rs:375-439 | every event in the stream records a frame accepted on a connection of its sender |
| `EndToEnd.StoredRowsTrace` | api/src/worker.rs:153-265 | every stored message is the row of such a frame, taken from the first committed batch with its id |
| `EndToEnd.CiphertextRowsTrace` | api/src/worker.rs:239-263 | every stored ciphertext is one with a valid device id of such an encrypted frame |
| `EndToEnd.CommittedCiphertextsStored` | api/src/worker.rs:239-263 | after the commit of its batch every ciphertext of an encrypted event that names a device is stored, and the number of each row is what the commits have sent |
| `EndToEnd.ReadStatesTrace` | api/src/worker.rs:267-304 | every read state that changed was set by a marking request of its reader or comes from a ReadReceipt frame accepted on a connection of the reader |
| `StoredFrames.RunStored` | api/src/worker.rs:105-129 | in every run every message of every batch that has been committed is in the history |
| `StoredFrames.DeliveredInBatch` | api/src/worker.rs:43-142 | every parseable entry that has been delivered is in some batch |
| `StoredFrames.FinishedFramesStored` | relay/src/lib.rs:375-439 | a finished message of a logging connection is in a batch of the worker as soon as that has read so far, and once the batch is committed its id is in the history and so is each of its ciphertexts for a device |

## Left out

- HTTP and WebSocket plumbing, task spawning, logging, configuration: "handed off" means pushed to the connection's channel or its subscription, and a receipt counts as issued when its publish is spawned.
- Password hashing, token coding, S3 presigning, UUID, JSON and Base64 decoding: library code.
- `dialogs_handler`, `messages_handler`, `get_read_state_handler` and unread counts: ids are opaque here and no claim about time order is made.
- Ids that are bound as UUID against a VARCHAR column (migrations/20260416000002_message_history.sql:2) are taken as the same id.
- `backup.rs` and `list_devices`: one-row operations without a protocol.
- Paging across claims: the query has no ORDER BY, so successive pages need not partition the devices; one page is any page.
- Cache TTL lengths, reconnect backoff and presence subscriptions of watchers; a cache entry may expire at any time.
- Several workers with one consumer name, and an XACK whose error is swallowed.
- SQL errors other than foreign keys (lost connections, texts longer than their column, failed commits).
- Aborting a connection while its drain runs: its tasks have not started yet.
- WorkerLoop.Consumer.Recover: models a connection that stays up; the endless outer loop with reconnects is the state machine of `WorkerProtocol.dfy`.
- HistoryDb.Database.MarkReadHandler: does not say which message of the dialog is the latest, because creation times are not modelled.
- KeyStore.Database.ClaimKeys: models a claim whose statements are not interleaved; the interleaved claims of `KeyProtocol.dfy` take any page and any limit, which includes the code's.
- RelayNoLoss.NoLoss: speaks of finished frames; `RelayNoLoss.FramesAccounted` says where the others are: a frame in hand when its connection is closed may be in the stream without ever being delivered, as in the code.
- KeyProtocol.SingleUse: does not hold for overlapping UPDATEs, as `KeyOverlap.ReturnedTwice` shows; it speaks of keys per device, and after a deletion the device's id never comes back.
- Presence.UpdatesAlternate: needs each operation and its publish as one step: in `Presence.OfflineTwice` two updates in a row say offline, and in `Presence.OnlineUnannounced` no update says that the user is online.
- SessionCache.CacheDecidesAsTable: serial operations that leave no stale entry; the interleaved statements are in `SessionStatements.dfy`.
