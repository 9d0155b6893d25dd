# CellSend / CEMP: verified models

CellSend sends encrypted messages as cells on a UTXO chain. This project models the parts of it whose
correctness is decided by code: the crash-resumable message and reclaim pipelines, ingestion and the
acknowledgement exchange, the multi-slot vault and its file format, the CighashAll signing stream, the
attachment pipeline, and the small schedulers and arithmetic kernels around them. Every statement
below is proved for all inputs, or for all finite runs, of the model it names.

`dafny verify dfyconfig.toml` checks everything.

## How the models are built

Long-running pipelines (`Publisher`, `ChunkPublisher`, `Reclaim`, `ReceiptRuns`, `Ingestion`, `Exchange`,
`AsyncMutex`, `ForegroundSync`, `Vault`) are state machines: a value holds everything that exists at one moment, an
event is one step (an await that returned, an answer of the node, a crash, a move of somebody else), a
step that is not possible changes nothing, and a result is a lemma about `Run` over every event
sequence. The modules `PublisherArrives`, `ChunksArrive`, `ReclaimAlone` and `WatchesAlone` say what such a
machine achieves when it is left to itself: they iterate the one step that answers whatever the call waits
for. What a crash destroys is kept apart from what it leaves: journal, rows, watches and ledger survive,
program counters and locals do not. Where the source is an object whose methods change its
fields (`ForegroundSync`, `SecureVaultImpl`, `RateLimiter`, `ResponseLifecycle`, the transaction being
signed, the stream writer) or a loop over a buffer, the project has a class or a method with loops,
proved equal to the specification function the lemmas are about.

| Files | Part |
|---|---|
| Options, MessageStates, Chain, Journal, Undisturbed | shared vocabulary: the section 11 state tables, the chain, the transaction journal, runs left to themselves |
| Publisher, PublisherArrives, PublisherRuns, PublishedRefs | publishing messages with resume; what an undisturbed call achieves; what can go wrong, as concrete runs; the outpoints it writes |
| ChunkPublisher, ChunksArrive, Purposes | publishing attachment chunks, the purpose strings that carry ids through the journal |
| Reclaim, ReclaimPaid, ReclaimNews, ReclaimCurrent | reclaim by overlapping callers, the credits of every won record, what its end states rest on, and the outpoints that rows show |
| ReclaimAlone, WatchesAlone | what one undisturbed batch, poll or finalized response achieves |
| PublishedRows | publishing and reclaiming together |
| Receipts, ReceiptRuns, Ingestion, Exchange | receipts, incoming messages and their healer, two devices acknowledging each other |
| Kdf, Vault, VaultDatabaseKey, Hex, Decimal, Json, VaultFormat, VaultText, VaultStorage | the vault state machine, its two ways to the database key, the byte-exact file format, and the two together |
| Molecule, Cighash, Mldsa, Signing | the signing stream, both builders, the signer |
| Chunks, ImageFit, Attachments | the attachment pipeline end to end |
| RateLimit, ForegroundSync, BackgroundSync, AsyncMutex, TransactionEndings, Crc32 | schedulers and kernels |

## What the environment is taken to be

- The chain: committed transactions have pairwise disjoint inputs and are never undone. `rejected`
  means never; so do send errors that packages/cemp-ckb/src/monitor.ts:144 recognises. For the
  publisher the second half is shown to be necessary (`PublisherRuns.MatchedErrorsMustBeFinal`); the
  reclaim results need it nowhere, only that a `committed` or dead-cell answer is true when given.
- The node may otherwise answer anything, accept a transaction and not deliver it, or deliver it and
  report an error.
- Where a call is left to itself (`PublisherArrives`, `ChunksArrive`, `ReclaimAlone`) the node is honest: it knows what is
  committed, condemned or waiting in its pool, has forgotten a transaction whose inputs went elsewhere and refuses to
  take it again as spent.
- Stores: recording a transaction hash twice keeps the first record; the latest record of a purpose
  is the last one inserted; the store replaces a row's outpoint whenever it is asked to; the journal of a
  message is empty before its first publish (records of older versions, without signed bytes, are
  `PublisherRuns.OldRecordsMayCommitTwice`).
- The models of publishing and of reclaiming have no state in common. `PublishedRows.PublishedRowsAreSpent` joins them:
  the outpoints a row is given are the outputs of the transactions a publisher run writes, and only the output of a
  committed transaction can be spent.
- `publishText` calls for one logical id do not overlap, and neither do vault calls, chunk uploads of one
  attachment or calls of the rate limiter's `consume`, which awaits between reading its buckets and writing them
  back: overlapping calls could spend one token twice. Reclaim callers, worker ticks and mutex callers do overlap.
- Cryptography is ideal. AES-GCM opens only under the same key, nonce and associated data; a key
  derivation has no collisions; a keystore blob opens only while its key exists; verification accepts
  what signing produced; where a result needs a collision-free hash it says so.
- JSON.parse reads back what JSON.stringify wrote; what it makes of any other text is left open.

## What was found

- `#walkToState` (packages/cemp-ckb/src/publisher.ts:447-468) is described as a no-op for states past
  its target. States past `available_on_chain` are not on its path list, and for those it asks for
  the first state of the path and throws: `MessageStates.WalkPastThePathThrows`, with the exact
  condition in `WalkSucceedsExactly`.
- A message can be funded for reclaim twice. The publisher sets its `broadcast` flag only after a resume
  has returned (packages/cemp-ckb/src/publisher.ts:309), so a question that throws inside the resume marks the row
  `failed` (publisher.ts:412-416), also a row that has meanwhile been queued for reclaim
  (`PublisherRuns.AResumeCanFailARowInReclaim`); apps/android/src/screens/chat-screen.tsx:277 may do the same. The next
  resume adopts the committed transaction and brings the row back to `available_on_chain`; a rescan then processes the
  same receipt again (packages/cemp-sync/src/workers.ts:298-306, 397-399) and funds it again
  (`ReceiptRuns.FundedTwice`). Fundings are at most the failures in reclaim plus one (`FundedOncePerFailure`), and
  `WhenFundingIsPossible` says exactly when one more can happen.
- Two numbers go into the vault file unchecked, while its parser checks them: the auto-lock time given at creation or
  import (packages/cemp-secure-vault/src/vault.ts:341-400) and the length of the keystore's blob when biometrics are
  enabled (vault.ts:583-606). A time outside 1 to 2147483, or a blob outside 16 to 512 bytes, leaves a vault that can
  never be opened again once it is locked: `Vault.UnreadableVaults`, exact condition in
  `Vault.WhenTheFileCanBeRead`, no way back but a wipe in `Vault.UnreadableIsForGood`.
- `unlocked` does not mean live keys: a wipe of an unlocked vault that any of its three deletions cuts short
  (vault.ts:717-730) drops the keys and keeps the status, so that nothing can be created and every call that needs a
  key fails. `Vault.UnlockedWithoutKeys` says exactly after which runs the vault is in that state: until it is locked,
  reopened, unlocked again or wiped completely.
- `getDatabaseKey` and `unwrapDatabaseKey` are documented as byte-identical (vault.ts:217). They need not be: creation
  writes the file and then the key blob (vault.ts:411-412), and a wipe deletes the file before the blob. A wipe that stops
  between its deletions, followed by a creation that stops between its writes, leaves a new vault over the old blob
  (`VaultDatabaseKey.AnotherVaultsKey`); `TheKeysAgreeExactly` has the exact condition.
- A ROLLBACK that fails leaves its transaction open and still releases the lock (packages/cemp-database/src/node.ts:86-98):
  a queued close then falls inside it (`AsyncMutex.ACloseInsideATransaction`) and no transaction begins any more. Closes
  fall between transactions exactly when no ROLLBACK before them failed (`AsyncMutex.ClosesFallBetweenTransactions`).
- A row can stand at `available_on_chain` with an outpoint that will never exist. The outpoint of a rebuilt transaction
  is written in a second store call after its journal record (publisher.ts:376-384). When the app dies between the
  two, the resume does not make up for it, and the pending worker or the healer beside it
  (packages/cemp-sync/src/workers.ts:669-721) brings the row forward before the monitor writes the outpoint at
  publisher.ts:437: `PublisherRuns.ARowAtADeadOutpoint`.
- `setChainRef` replaces a row's outpoint whatever the row's state (packages/cemp-database/src/repositories/messages.ts:205).
  The bare call could leave a row shown as reclaimed at an unspent cell (`ReclaimCurrent.CarelessReplacement`); the
  callers there are cannot. A reclaimed row shows a spent outpoint as long as outpoints are replaced only before the
  row was ever shown at `committed` or later (`ReclaimCurrent.ReclaimedRowsAreSpent`). The publisher builds nothing new
  after that point (`PublishedRefs.BuildsPrecedeTheCommit`) and whatever it replaces is dead
  (`PublishedRefs.ReplacedOutpointsAreDead`), so the one late replacement there is, the repair of the row described in
  the item before, does no harm either: `PublishedRows.PublishedRowsAreSpent` covers every run of the publisher.
- A repeated upload of the same attachment commits its chunks again: `publishAttachmentChunks` resumes a `submitted`
  record only (packages/cemp-images/src/send.ts:127-128), and a committed one is followed by a fresh build
  (`ChunkPublisher.ARepeatedCallUploadsAgain`). `ChunkPublisher.OneUploadPerRepeat` counts the copies.
- The two stream builders differ where the first group witness is a table with further fields: CCC's decoder, as the
  TypeScript side uses it, accepts it and the Rust reader refuses it. `Cighash.WhereTheBuildersDiffer`
  is the exact condition, for any such decoder.
- A full 1 MiB image needs 33 chunks, not 32 as packages/cemp-images/src/encrypt.ts:15 says:
  `Attachments.AtMost33Chunks` gives the sizes.
- The healer (packages/cemp-sync/src/workers.ts:745-774) works on a listing cut at 500 rows. One pass
  leaves nothing at `downloading` or `decrypting` exactly when no more were stranded:
  `Ingestion.HealStrandedIncoming`.
- The stream does not carry the group size: a group witness and an extra witness are written alike
  (`Cighash.GroupSizeIsNotInTheStream`), so unique decodability needs it fixed.

## Model

| member | source | states |
|---|---|---|
| MessageStates.MilestonesAreNotSkipped | packages/cemp-database/src/message-states.ts:82-145 | no legal history of an outgoing row reaches a state without passing every earlier one on the main line |
| MessageStates.OutgoingEdgesExactly | packages/cemp-database/src/message-states.ts:82-101 | an outgoing transition is legal iff it is the next state on the line, a failure before the end, an expiry in the queue or while pending, a pending reclaim queued again, or a failed row queued |
| MessageStates.IncomingEdgesExactly | packages/cemp-database/src/message-states.ts:103-116 | an incoming transition is legal iff it is the next state on the line or `invalid` before the end |
| MessageStates.WalkSucceedsExactly | packages/cemp-ckb/src/publisher.ts:447-468 | exactly when the publisher's walk to a target succeeds, and that it then ends there or stays further on |
| MessageStates.WalkPastThePathThrows | packages/cemp-ckb/src/publisher.ts:456-468 | remark: an acknowledged row makes the walk throw instead of being a no-op |
| Publisher.AtMostOneCommit | packages/cemp-ckb/src/publisher.ts:260-422 | over every run of non-overlapping publish calls, with a crash at any await and any node behaviour, at most one transaction journaled for the message ever commits |
| Publisher.JournaledBeforeBroadcast | packages/cemp-ckb/src/publisher.ts:363-402 | every transaction the network has seen has a journal record that holds the transaction itself, and a resume sends only the one its record holds |
| Publisher.CommittedRowsAreOnChain | packages/cemp-ckb/src/publisher.ts:425-450 | a row shown as committed or later has a journaled transaction that is committed on chain |
| PublisherArrives.ACallArrives | packages/cemp-ckb/src/publisher.ts:260-450 | whatever calls, crashes and failures came before, an undisturbed call for a queued message ends with its transaction committed, marked committed, named by the row, and the row at `available_on_chain` |
| PublisherArrives.AHeardCommitArrives | packages/cemp-ckb/src/publisher.ts:425-450 | a monitor that hears the commit marks the record, sets the outpoint and brings the row to `available_on_chain` from anywhere on the path or from `failed`; a row beyond the path stays |
| PublisherArrives.AResumedCommitArrives | packages/cemp-ckb/src/publisher.ts:273-330 | so does a resume that hears it, wherever in the resume; over a row beyond the path it changes nothing |
| PublisherRuns.MatchedErrorsMustBeFinal | packages/cemp-ckb/src/monitor.ts:112-164 | if a matched send error need not be final, two transactions of one message can commit: a concrete run |
| PublisherRuns.OldRecordsMayCommitTwice | packages/cemp-ckb/src/monitor.ts:130-137 | over a record without signed bytes that the node does not know, two transactions can commit, also when matched errors are final: a concrete run |
| PublisherRuns.AResumeCanFailARowInReclaim | packages/cemp-ckb/src/publisher.ts:274-416 | a reachable row queued for reclaim is failed by a throwing resume and queued again: a concrete run |
| PublisherRuns.ARowAtADeadOutpoint | packages/cemp-ckb/src/publisher.ts:273-437 | after a crash between journaling a rebuilt transaction and recording its outpoint, the row reaches `available_on_chain` naming the abandoned transaction's output: a concrete run |
| PublishedRefs.OnlyTheCommittedIsWritten | packages/cemp-ckb/src/publisher.ts:273-437 | after any run: once a journaled transaction is committed, a call about to write the row's outpoint writes that transaction's |
| PublishedRefs.ReplacedOutpointsAreDead | packages/cemp-ckb/src/publisher.ts:384-437 | after any run: an outpoint that a step replaces belongs to a transaction that can never commit |
| PublishedRefs.OnlyTheLastCanCommit | packages/cemp-ckb/src/publisher.ts:384-437 | of all outpoints a run writes only the last can belong to a committed transaction |
| PublishedRefs.BuildsPrecedeTheCommit | packages/cemp-ckb/src/publisher.ts:331-386 | once a row was shown at committed or later, no later call records the outpoint or envelope id of a newly built transaction |
| ChunkPublisher.OneUploadPerRepeat | packages/cemp-images/src/send.ts:114-202 | over every run with crashes anywhere, an attachment's chunks are committed at most once plus once per call that found the latest record already committed |
| ChunkPublisher.ARepeatedCallUploadsAgain | packages/cemp-images/src/send.ts:127-191 | from any idle world whose latest record is committed, one more call can commit any fresh transaction beside the copies there are |
| ChunksArrive.AnUploadArrives | packages/cemp-images/src/send.ts:114-191 | whatever came before, an undisturbed upload ends with the chunks committed and the latest record saying so |
| Purposes.ReclaimPurposeRoundTrip | packages/cemp-ckb/src/lifecycle.ts:512-524 | parsing `reclaim:` and the joined ids gives back exactly the ids, for every non-empty list of positive ids |
| Purposes.ReadPurposesNameRows | packages/cemp-ckb/src/lifecycle.ts:512-524 | a `reclaim:` purpose is readable iff every part between commas is a positive number, and then names one row per part |
| Purposes.WatchPurposeRoundTrip | packages/cemp-ckb/src/lifecycle.ts:526-533 | the row id in a response watch's purpose is read back exactly |
| Reclaim.EachCellCreditedOnce | packages/cemp-ckb/src/lifecycle.ts:238-446 | under any interleaving of overlapping callers and crashes, no message cell's capacity is credited twice |
| Reclaim.CreditsAreExact | packages/cemp-ckb/src/lifecycle.ts:238-446 | a credit releases the sum of the capacities its transaction covers less its fee, never below zero, and burns exactly the fee |
| Reclaim.EachFeeBurnedOnce | packages/cemp-ckb/src/lifecycle.ts:400-446 | no reclaim transaction's fee is burned twice |
| ReclaimPaid.WonBatchesAreCredited | packages/cemp-ckb/src/lifecycle.ts:287-439 | over every run, for every record a caller won: its rows are reclaimed, the capacity above the fee released and the fee burned, unless the winner is still at it, died, or was refused a row or watch write |
| ReclaimPaid.CommittedRecordsAreCredited | packages/cemp-ckb/src/lifecycle.ts:287-439 | the same for whatever record the journal shows as committed |
| ReclaimAlone.ABatchReclaims | packages/cemp-ckb/src/lifecycle.ts:322-446 | an undisturbed batch from its first line: rows of live and dead cells end reclaimed, all others stay; for the live ones one committed record, the release net of the fee, the burn, and no watch left on them |
| ReclaimAlone.AResumedBatchReclaims | packages/cemp-ckb/src/lifecycle.ts:246-320 | a record left submitted whose transaction is committed or can be is seen through as if there had been no crash |
| ReclaimAlone.ADeadBatchIsRequeued | packages/cemp-ckb/src/lifecycle.ts:265-286 | a record whose transaction can never commit is abandoned, its rows queued again, nothing credited |
| ReclaimAlone.AScanFinishesTheBatch | packages/cemp-sync/src/workers.ts:669-683 | the pending scan sees the latest reclaim record through when its transaction is committed, as a resume does |
| ReclaimAlone.AScanMarksTheRejected | packages/cemp-sync/src/workers.ts:669-700 | of a transaction not committed it marks the record exactly when the node has condemned it, and touches nothing else |
| WatchesAlone.APollReclaims | packages/cemp-ckb/src/lifecycle.ts:469-509 | an undisturbed poll: exactly the responses watching a dead cell are remotely reclaimed, spent watches are pruned when there was one, everything else stays |
| WatchesAlone.AFinalizedResponseIsWatched | packages/cemp-ckb/src/lifecycle.ts:448-462 | the response awaits its reclaim and the cell it answers is watched for it, unless it was watched already |
| ReclaimNews.OnlyNewsReclaims | packages/cemp-ckb/src/lifecycle.ts:243-446 | in any run a row is shown as reclaimed only if a caller was truthfully told, of an outpoint recorded for the row, that it is dead or that a transaction spending it for this row is committed; that outpoint is spent |
| ReclaimNews.OnlyADeadCellReclaimsRemotely | packages/cemp-ckb/src/lifecycle.ts:448-509 | in any run a response is shown as remotely reclaimed only if a finalizer registered it to watch a cell that a caller was truthfully told is dead |
| ReclaimNews.UnknownAnswersReclaimNothing | packages/cemp-ckb/src/lifecycle.ts:243-509 | a run in which no answer says dead or committed brings no row to either end state, whatever the chain does |
| ReclaimCurrent.ReclaimedRowsAreSpent | packages/cemp-ckb/src/lifecycle.ts:243-446 | in any run that replaces a row's outpoint only before the row was ever shown at committed or later, a reclaimed row shows a spent outpoint |
| ReclaimCurrent.ReplacingIsSafeExactly | packages/cemp-database/src/repositories/messages.ts:205-226 | replacing an outpoint keeps callers' notes, resumable records and reclaimed rows in agreement with the rows iff nobody has the row in hand and a reclaimed row gets a spent outpoint |
| ReclaimCurrent.CarelessReplacement | packages/cemp-database/src/repositories/messages.ts:205-226 | remark: the bare store call would allow an outpoint replaced while a caller marks the row, which leaves it reclaimed at an unspent cell |
| PublishedRows.OnlyTheLastSpent | packages/cemp-ckb/src/lifecycle.ts:243-446 | after any run: if of all outpoints a row was given only the last is spent, the row once reclaimed shows a spent outpoint, whenever they were replaced |
| PublishedRows.PublishedRowsAreSpent | packages/cemp-ckb/src/publisher.ts:384-437 | a row whose outpoints are those a publisher run wrote, crashes included, reclaimed under any interleaving of callers, shows a spent outpoint |
| Receipts.OneReceipt | packages/cemp-ckb/src/lifecycle.ts:174-211 | one receipt asks for legal transitions only and leaves exactly the store that its meaning, a set operation, describes |
| Receipts.ReceiptsAddUp | packages/cemp-ckb/src/lifecycle.ts:174-211 | applying two sets of receipts one after the other is applying their union |
| Receipts.OrderAndRepetitionDoNotMatter | packages/cemp-ckb/src/lifecycle.ts:174-211 | order, duplicates and replays of receipts do not change the result |
| Receipts.ResponseLifecycle.ProcessAcknowledgements | packages/cemp-ckb/src/lifecycle.ts:174-211 | the loop over a reply's receipts throws nowhere and leaves the store the set of receipts describes |
| ReceiptRuns.FundedOncePerFailure | packages/cemp-ckb/src/lifecycle.ts:174-211 | over every run, with replies cut off after any store call and seen again: fundings of a message are at most its failures in reclaim plus one, and no more than those failures while it is not in reclaim |
| ReceiptRuns.WhenFundingIsPossible | packages/cemp-ckb/src/lifecycle.ts:174-211 | after any run a message can be funded (again) iff its row is in no end state and either was never shown committed, and so can still be built, or was built under an envelope id and with its capacity known; without failing in reclaim iff it has also not reached reclaim |
| ReceiptRuns.FundedTwice | packages/cemp-ckb/src/lifecycle.ts:174-211 | a run from nothing that funds one message twice with a single failure in reclaim: built once, resumed, the same receipt seen again |
| ReceiptRuns.ChunksNeedTheirOwnReceipt | packages/cemp-sync/src/workers.ts:823-872 | chunk cells are spent only for a reclaimed message that got a `0x05` receipt, never on `0x01` alone |
| ReceiptRuns.ConfirmedChunksAreSpent | packages/cemp-sync/src/workers.ts:823-872 | the other direction: after a processed `0x05` receipt the next pass spends the chunks of a reclaimed message |
| ReceiptRuns.OnlyTheLastBuildIsAnswered | packages/cemp-sync/src/workers.ts:281-306 | after any run a message answers to one envelope id, that of its last build; a receipt for an envelope built over does nothing |
| Ingestion.OneRowOneResponseOneNotice | packages/cemp-sync/src/workers.ts:281-507 | after any rescans, heals, interruptions and other moves: one row per logical id, so one row and one response per message, one notification at most, none of them before the message arrived |
| Ingestion.OnlyLegalForwardEdges | packages/cemp-sync/src/workers.ts:381-467 | from every reachable state no store call of a pass throws, wherever it is cut off, and incoming rows only move forward |
| Ingestion.OnePassIsEnough | packages/cemp-sync/src/workers.ts:381-507 | one uninterrupted pass over a message in any interrupted state: received, one more notification, the source cell recorded and a response queued that names it; over an arrived message nothing changes |
| Ingestion.OneConfirmation | apps/android/src/messaging.ts:667-692 | a downloaded attachment is confirmed by one queued row that names the message's cell; none without a cell, never a second one |
| Ingestion.HealStrandedIncoming | packages/cemp-sync/src/workers.ts:745-774 | every listed row ends received, notified and answered; nothing is left at downloading or decrypting iff at most 500 rows were stranded |
| Exchange.TheExchangeIsBounded | packages/cemp-sync/src/workers.ts:281-507 | in every run of two devices, rows are at most four and logical messages at most three per message a user sent |
| Exchange.OnlyContentIsAnswered | packages/cemp-sync/src/workers.ts:604-667 | what a device holds, answers or confirms is content the other user composed; envelopes are pure acknowledgements exactly when they are not content, each with the one receipt of its kind |
| Exchange.AcksAreNeverAnswered | packages/cemp-sync/src/workers.ts:298-306 | delivering an acknowledgement creates no row and no further acknowledgement |
| Exchange.SentIsOnChain | packages/cemp-sync/src/workers.ts:281-507 | content a user sends under a new id is on chain and in the sender's table |
| Exchange.ContentIsAnswered | packages/cemp-sync/src/workers.ts:604-645 | content delivered in full is received, notified and answered on chain by exactly one `0x01` receipt |
| Exchange.DownloadsAreConfirmed | packages/cemp-sync/src/workers.ts:583-645 | a downloaded attachment is confirmed on chain by exactly one `0x05` receipt |
| Vault.TheFileStaysCoherent | packages/cemp-secure-vault/src/vault.ts:341-636 | after any sequence of calls, failures included, the payload's associated data is the file's header, the password slot wraps the VEK under the current password, a biometric slot wraps the same VEK, and live keys are the file's |
| Vault.ThePasswordOpensTheSeed | packages/cemp-secure-vault/src/vault.ts:419-520 | after any run unlock and reveal succeed exactly for the password last set, with the auto-lock time and the enrolled blob length in range, and give the original seed and phrase, and the auto-lock time cut to an hour |
| Vault.TheBiometricOpensTheSeed | packages/cemp-secure-vault/src/vault.ts:448-476 | after any run biometric unlock succeeds exactly on acceptance with the wrapping key still there and both numbers in range, and gives the original seed and the auto-lock time cut to an hour |
| Vault.WhenTheFileCanBeRead | packages/cemp-secure-vault/src/vault.ts:746-752 | after any run the stored file can be read iff the auto-lock time given at creation or import, and the blob length of the enrolment in force, are in range |
| Vault.UnreadableIsForGood | packages/cemp-secure-vault/src/vault.ts:419-636 | a file that cannot be read stays as it is, and unlock, biometric unlock, reveal, password change and enabling or disabling biometrics all fail, through any calls, until a wipe deletes it |
| Vault.FailedCallsLeaveTheFile | packages/cemp-secure-vault/src/vault.ts:341-636 | a failed call leaves file, keys and status as they were, except a wipe and a creation that failed between its two writes |
| Vault.ChangingThePassword | packages/cemp-secure-vault/src/vault.ts:522-579 | it succeeds iff the old password is the current one, the file is readable and nothing fails; VEK, secret, biometric slot and meta carry over, salt and nonces are fresh, the new password opens, the old one does not |
| Vault.EnrollingABiometric | packages/cemp-secure-vault/src/vault.ts:583-599 | it succeeds iff the vault is unlocked with keys, a biometric is offered, the keystore has a key and nothing fails; an enrolment in force stays; both ways in then work iff the blob takes 16 to 512 bytes |
| Vault.DisablingTheBiometric | packages/cemp-secure-vault/src/vault.ts:601-613 | when it succeeds; the biometric then no longer opens the vault and the password does |
| Vault.LockedMeansLocked | packages/cemp-secure-vault/src/vault.ts:478-493 | a lock drops the keys and nothing else |
| Vault.CreatedVaultsCanBeReadBack | packages/cemp-secure-vault/src/vault.ts:341-417 | a created or imported vault is unlocked with the seed of its phrase and passphrase, the time asked for or 300 seconds and a wrapped database key; it can be unlocked again iff the time is in the range the parser accepts |
| Vault.WhenCreationSucceeds | packages/cemp-secure-vault/src/vault.ts:282-417 | creation and import succeed iff nothing is there, phrase and cost are acceptable, the keystore has a key and nothing fails |
| VaultDatabaseKey.TheKeysAgreeExactly | packages/cemp-secure-vault/src/vault.ts:645-668 | after any run that ends with live keys: the derived and the unwrapped database key are the same iff the last creation that went through, and whose key no wipe has reached, was of this seed and the keystore still has its key |
| VaultDatabaseKey.UncutCreationsAgree | packages/cemp-secure-vault/src/vault.ts:395-412 | in a run without a creation cut between its two writes that seed is always the current vault's |
| VaultDatabaseKey.AnotherVaultsKey | packages/cemp-secure-vault/src/vault.ts:395-730 | remark: a concrete run after which the unlocked vault unwraps an earlier vault's database key |
| Kdf.Defaults | packages/cemp-secure-vault/src/kdf.ts:163-199 | what creation uses where nothing is asked for, within the caps |
| Vault.UnreadableVaults | packages/cemp-secure-vault/src/vault.ts:383-606 | remark: a concrete creation and a concrete enrolment that succeed and lock the vault out for good |
| VaultStorage.StoredFilesReadBack | packages/cemp-secure-vault/src/format.ts:227-414 | the bytes written for a file of the state machine parse back as that file iff the machine calls it readable, and are refused otherwise |
| VaultStorage.StorageParsesExactly | packages/cemp-secure-vault/src/vault.ts:746-752 | after any run of vault calls the bytes in storage parse iff both unchecked numbers are in range, whatever integer the auto-lock time is |
| Vault.WipedMeansGone | packages/cemp-secure-vault/src/vault.ts:717-730 | a wipe drops the live keys in any case and completes iff no deletion fails; after a completed one nothing opens, not even copies of the biometric slot or the key blob |
| Vault.UnlockedWithoutKeys | packages/cemp-secure-vault/src/vault.ts:717-730 | after any run the vault is `unlocked` without keys iff some wipe of the unlocked vault was cut short, at whichever deletion, and nothing since repaired it; then nothing can be created |
| Vault.KeysPartAndMeet | packages/cemp-secure-vault/src/vault.ts:419-730 | call by call: status and keys part exactly in an interrupted wipe of an unlocked vault and meet again exactly in a lock, a reopening, a complete wipe or a successful unlock |
| Vault.SecureVault.ChangePassword | packages/cemp-secure-vault/src/vault.ts:522-579 | the method's new state and result are those of the specification the lemmas are about |
| Vault.SecureVault.BuildVault | packages/cemp-secure-vault/src/vault.ts:341-417 | creation's new state for every fault, in the order keystore, file, key blob |
| Vault.SecureVault.Rewritten | packages/cemp-secure-vault/src/vault.ts:611-636 | the payload is sealed again under the live VEK with the new header, or nothing changes |
| Vault.GenerateQuiz | packages/cemp-secure-vault/src/vault.ts:670-687 | the quiz positions are distinct, ascending, in range and as many as asked for, at least one and at most all |
| Vault.VerifyQuiz | packages/cemp-secure-vault/src/vault.ts:689-701 | accepted iff every position is in range and every normalised answer is the word there |
| Json.TextIsUnique | packages/cemp-secure-vault/src/format.ts:220-240 | a text written from plain values has one reading, whatever follows it |
| Hex.HexToBytes | packages/cemp-secure-vault/src/format.ts:110-119 | the decoding loop accepts exactly even-length lower-case hex and computes its bytes |
| Hex.BytesRoundTrip | packages/cemp-secure-vault/src/format.ts:102-119 | encoding what was decoded gives the text back |
| VaultFormat.ParsedFilesAreInRange | packages/cemp-secure-vault/src/format.ts:275-414 | whatever text is offered, a parsed file meets every cap and length |
| VaultFormat.VaultFileRoundTrip | packages/cemp-secure-vault/src/format.ts:227-414 | parsing a serialized file in range gives it back, with the associated data its payload was sealed under |
| VaultFormat.OnlyFilesInRangeReadBack | packages/cemp-secure-vault/src/format.ts:227-414 | a file reads back as itself iff it is in range |
| VaultFormat.FilesFit | packages/cemp-secure-vault/src/format.ts:227-240 | every file in range serializes far below the 65,536-byte cap, so the cap excludes none |
| VaultFormat.PayloadAadIsInjective | packages/cemp-secure-vault/src/format.ts:183-224 | equal associated data means equal version, KDF parameters, salt and both slots |
| VaultText.AadText | packages/cemp-secure-vault/src/format.ts:199-224 | the associated data is the text of version, key derivation, password slot and biometric slot, in this order and nothing else |
| VaultText.KdfText | packages/cemp-secure-vault/src/format.ts:183-188 | the key derivation's text: algorithm, costs, salt, in this order |
| VaultText.SlotText | packages/cemp-secure-vault/src/format.ts:190-197 | a slot's text: the nonce where there is one, then the wrapped key |
| VaultFormat.EncodeSecretPayload | packages/cemp-secure-vault/src/format.ts:138-152 | the buffer holds length, entropy, seed and flag; any other lengths are refused |
| VaultFormat.SecretPayloadRoundTrip | packages/cemp-secure-vault/src/format.ts:138-177 | decoding undoes encoding, and the length is the one the word count announces |
| VaultFormat.AcceptedBytesRoundTrip | packages/cemp-secure-vault/src/format.ts:155-173 | every byte string the decoder accepts is the encoding of what it decodes to |
| Molecule.WitnessRoundTrip | packages/cemp-ckb/src/cighash.ts:50-64 | a witness that was written reads back, None kept apart from Some of no bytes |
| Molecule.WitnessIsCanonical | packages/cemp-ckb/src/cighash.ts:113-128 | bytes that read as a witness are the one way to write it |
| Molecule.CellOutputLayout | packages/cemp-ckb/src/cighash.ts:92-108 | capacity at 16, lock at 24, then the type, behind a header of size and offsets |
| Molecule.ScriptLayout | packages/cemp-ckb/src/cighash.ts:92-108 | code hash at 16, hash type at 48, the arguments' length at 49 and the arguments from 53 on |
| Molecule.WitnessLayout | packages/cemp-ckb/src/cighash.ts:110-128 | a witness's lock has its length at 16 and its bytes from 20 on, the two types follow |
| Molecule.U64IsLittleEndian | packages/cemp-ckb/src/cighash.ts:92-108 | the eight bytes of a capacity are its digits to base 256, lowest first |
| Molecule.U32IsLittleEndian | packages/cemp-ckb/src/cighash.ts:41-48 | the four bytes of a length are its digits to base 256, lowest first |
| Cighash.BuildCighashAllStream | packages/cemp-ckb/src/cighash.ts:76-147 | the TypeScript builder returns the specified stream, or the specified error, in every case and for any witness reader |
| Cighash.GenerateTxMessageAllHost | tools/signing-harness/src/ckb_tx_message_all_host.rs:83-166 | the Rust builder writes the stream, or fails with the error, that the specification gives for a reader of exactly three fields |
| Cighash.WhatRustWritesTypeScriptWrites | packages/cemp-ckb/src/cighash.ts:76-147 | whatever stream the Rust builder writes the TypeScript builder writes too, whatever its reader makes of other bytes |
| Cighash.WhereTheBuildersDiffer | packages/cemp-ckb/src/cighash.ts:110-128 | the builders differ iff all earlier checks pass and the first group witness is accepted by TypeScript's reader and refused by the strict one |
| Cighash.AFourthFieldTellsThemApart | packages/cemp-ckb/src/cighash.ts:110-128 | remark: a witness table of four empty fields, with a reader that skips further fields |
| Cighash.StreamIsUniquelyDecodable | packages/cemp-ckb/src/cighash.ts:76-147 | for equal input count and group size, equal streams force equal hash, cells, data, input and output type, group witnesses and extra witnesses |
| Cighash.SignedContentIsOk | packages/cemp-ckb/src/cighash.ts:76-147 | whatever a transaction signs is content the stream determines |
| Cighash.WhatIsSigned | packages/cemp-ckb/src/cighash.ts:76-147 | a successful stream covers the hash, every cell with its data, the first group witness's two types, the other group witnesses in order, and every witness beyond the inputs |
| Cighash.GroupSizeIsNotInTheStream | packages/cemp-ckb/src/cighash.ts:130-140 | moving an extra witness into the group leaves the stream as it was |
| Mldsa.MldsaV2WitnessLock | packages/cemp-crypto/src/mldsa-v2.ts:197-213 | flag, public key and signature at their offsets, 5262 bytes, other lengths refused |
| Mldsa.MldsaV2LockArgs | packages/cemp-crypto/src/mldsa-v2.ts:85-95 | the 37 bytes of the lock arguments |
| Mldsa.BuildFinalMessage | packages/cemp-crypto/src/mldsa-v2.ts:110-120 | the framed message of section 5.4 of FIPS 204 for the fixed context |
| Mldsa.FrameIsInjective | packages/cemp-crypto/src/mldsa-v2.ts:105-120 | the frame determines context and message |
| Signing.SpliceKeepsTheStream | packages/cemp-ckb/src/cighash.ts:167-173 | replacing the first witness's lock by any lock leaves the stream unchanged |
| Signing.SignedTransactionsVerify | packages/cemp-ckb/src/signing.ts:262-339 | whatever signing returns, the self-check accepts |
| Signing.OneSignatureOneContent | packages/cemp-ckb/src/signing.ts:313-339 | if the self-check accepts two transactions with as many inputs and the same lock, they have the same hash, cells, data and witnesses but for the first one's lock, or their streams are a collision of the digest, or that signature verifies for two digests under the key; nothing is asked of the scheme |
| Signing.SignTransaction | packages/cemp-ckb/src/signing.ts:244-302 | when signing succeeds and with what; other witnesses, input and output types kept; no signature written on failure |
| Signing.WhenSigningSucceeds | packages/cemp-ckb/src/signing.ts:244-302 | over live cells and placeable witnesses signing succeeds iff there are inputs, all of them under the signer's lock, a stream, and room for the signed witness |
| Signing.OnlyLiveCellsAreSigned | packages/cemp-ckb/src/signing.ts:244-302 | whatever is signed spends live cells under the signer's own lock only, with a witness that could take the placeholder for each |
| Signing.VerifyOwnSignature | packages/cemp-ckb/src/signing.ts:313-339 | the self-check answers as specified for every transaction and every cell list |
| Signing.PreparingIsIdempotent | packages/cemp-ckb/src/signing.ts:365-397 | placeholders: idempotent, input and output types kept, real locks and extra witnesses untouched |
| Signing.RealLocksStay | packages/cemp-ckb/src/signing.ts:365-397 | after preparation an input's witness is untouched if it had a lock other than zeros, and has 5262 zero bytes as its lock otherwise |
| Signing.EnsurePlaceholderWitnesses | packages/cemp-ckb/src/signing.ts:365-397 | the in-place loop computes exactly the prepared witnesses, or stops at the first that is no WitnessArgs |
| Chunks.SplitJoin | packages/cemp-images/src/encrypt.ts:71-98 | joining undoes splitting; the count is the size over the chunk size rounded up; all chunks but the last are full, none is empty |
| Chunks.SplitIntoChunks | packages/cemp-images/src/encrypt.ts:71-86 | the loop computes the split and refuses empty data and non-positive sizes |
| Chunks.JoinChunks | packages/cemp-images/src/encrypt.ts:89-98 | the copying loops compute the concatenation |
| ImageFit.FitIsInside | packages/cemp-images/src/limits.ts:36-53 | a fit stays inside the bound, never enlarges, keeps what fits, and scales both edges alike up to half a pixel or the one-pixel floor |
| ImageFit.CompressToLimits | packages/cemp-images/src/compress.ts:42-85 | the first of the twenty candidates within the preferred size, else the smallest if within the maximum, else the error |
| ImageFit.CompressedIsInside | packages/cemp-images/src/compress.ts:42-85 | the result is inside the preferred edge, and inside the byte maximum whenever the preferred size is not above it |
| ImageFit.LadderSucceeds | packages/cemp-images/src/compress.ts:42-85 | the ladder succeeds iff one of the twenty candidates is within the preferred size or the maximum |
| ImageFit.TheLadder | packages/cemp-images/src/compress.ts:16-18 | the five sizes and four qualities, and what the default limits make of a 4000 by 3000 photograph |
| ImageFit.BytesShowTheirDimensions | packages/cemp-images/src/compress.ts:42-85 | the bytes of a result encode the image at exactly the dimensions and quality the result names |
| Attachments.PrepareImage | packages/cemp-images/src/prepare.ts:53-81 | succeeds iff the source is a known format that decodes to an image with pixels, both edge limits are positive and some candidate is small enough; bytes and dimensions are the ladder's choice, the thumbnail is the source's thumbnail fit, the hash is the bytes' |
| Attachments.ChunkCountsAgree | packages/cemp-images/src/prepare.ts:34-46 | the estimate, the chunks cut and the count the receiver demands are the same number |
| Attachments.AtMost33Chunks | packages/cemp-images/src/encrypt.ts:15-16 | at most 33 chunks, and 33 exactly above 1,048,560 bytes |
| Attachments.BuiltManifestPasses | packages/cemp-images/src/manifest.ts:49-157 | the sender's manifest passes the receiver's checks iff size, dimensions and thumbnail are acceptable |
| Attachments.SniffedExactly | packages/cemp-images/src/codec.ts:40-71 | a format is recognised iff its magic bytes are there, whatever the order of the tests |
| Attachments.AcceptedExactly | packages/cemp-images/src/manifest.ts:91-157 | the receiver's checks pass iff sizes, chunk count, dimensions, thumbnail, type and algorithm are as one unordered condition says |
| Attachments.AadNamesTheAttachment | packages/cemp-images/src/encrypt.ts:18-27 | the associated data is the protocol's name and the attachment's id, different for different ids |
| Attachments.DownloadAttachment | packages/cemp-images/src/receive.ts:63-132 | a download succeeds iff the manifest passes, every chunk is live and within its cap and the opened ciphertext passes every check, and then returns it; otherwise it names the first chunk that failed and why |
| Attachments.OpenedExactly | packages/cemp-images/src/receive.ts:99-132 | a ciphertext opens to exactly the bytes it decrypts to under the attachment's name, iff sizes, both hashes, nonce and type are the declared ones |
| Attachments.EndToEnd | packages/cemp-images/src/receive.ts:63-132 | prepare, encrypt, split, manifest, check, fetch, join, decrypt returns exactly the prepared bytes, inside the edge limit |
| Attachments.HostileChainsCannotSubstitute | packages/cemp-images/src/receive.ts:99-126 | remark: under a genuine manifest and a collision-free hash a successful download gives the sender's own bytes whatever the chain serves |
| Attachments.AssemblyIsBounded | packages/cemp-images/src/receive.ts:63-98 | whatever manifest and chain, at most 33 chunks are asked for and at most 1,081,344 bytes assembled before any hash is checked |
| RateLimit.OneCall | packages/cemp-ckb/src/rate-limit.ts:55-94 | bucket by bucket: an admitted call takes one token from the contact and one from the global bucket, a refused call none, no other level moves |
| RateLimit.WindowBound | packages/cemp-ckb/src/rate-limit.ts:55-94 | over any calls with a clock that never runs back and any window of T milliseconds: at most c + c*T/3,600,000 for a contact, g + g*T/3,600,000 in total; tokens within [0, cap] |
| RateLimit.RefilledAtTheRate | packages/cemp-ckb/src/rate-limit.ts:83-94 | t milliseconds after a charge a bucket stands at what the charge left plus t/3,600,000 of its allowance, up to the allowance |
| RateLimit.ContactChargesAreGlobalCharges | packages/cemp-ckb/src/rate-limit.ts:55-76 | whatever is charged to a contact is charged to the scope's global bucket |
| RateLimit.RateLimiter.Consume | packages/cemp-ckb/src/rate-limit.ts:55-76 | the method's answer and new buckets are those of the specification |
| ForegroundSync.NoOverlapNoStall | apps/android/src/foreground-sync.ts:80-194 | after any events: no overlapping sweeps, at most one timer, running means a sweep or a timer, not running means no timer |
| ForegroundSync.RestsAtMostTheCadence | apps/android/src/foreground-sync.ts:98-104 | with no sweep in flight an armed timer waits at most the current cadence |
| ForegroundSync.TheLoopGoesOn | apps/android/src/foreground-sync.ts:163-194 | a settled sweep of a running scheduler arms a timer of exactly the current cadence and a fired timer begins a sweep |
| ForegroundSync.RunsAsAsked | apps/android/src/foreground-sync.ts:80-160 | after any events the scheduler is started, paused and paced as the calls so far ask: started iff a start was not followed by a stop, paused iff a pause of a started one was followed by neither, paced by the last cadence given |
| ForegroundSync.SweepsAtOnce | apps/android/src/foreground-sync.ts:80-160 | a first start, the end of a pause, a demand and a timer leave exactly one sweep in flight if the scheduler is to run |
| ForegroundSync.Scheduler.SetCadence | apps/android/src/foreground-sync.ts:98-104 | the method's new state is that of the specification |
| BackgroundSync.RunLocked | apps/android/src/background-sync-core.ts:41-80 | the tick's outcome, cache and notification are those of the specification |
| BackgroundSync.RememberedMeansNotified | apps/android/src/background-sync-core.ts:41-80 | whatever lastSeen gains was covered by a successful notification |
| BackgroundSync.CountedOnce | apps/android/src/background-sync-core.ts:41-80 | an outpoint that stays on chain is counted by at most one successful notification |
| BackgroundSync.NothingIsLost | apps/android/src/background-sync-core.ts:60-74 | a reported, unseen outpoint is in this tick's notification, or the cache is left for the next tick |
| BackgroundSync.TickExactly | apps/android/src/background-sync-core.ts:41-80 | outpoint by outpoint: what a tick notifies about and remembers; only a tick that every tag answers forgets, and unnotified news changes nothing |
| AsyncMutex.MutualExclusion | packages/cemp-database/src/async-mutex.ts:16-34 | two of any number of callers never hold the lock at once |
| AsyncMutex.EntryInCallOrder | packages/cemp-database/src/async-mutex.ts:16-34 | sections begin in call order, none left out |
| AsyncMutex.NeverWedged | packages/cemp-database/src/async-mutex.ts:16-34 | the first unserved caller can always move, whether the statement before it succeeded or failed |
| AsyncMutex.ClosesFallBetweenTransactions | packages/cemp-database/src/node.ts:81-126 | the connection sees whole transactions one after the other and nothing after a close; a close falls between transactions iff no ROLLBACK before it failed |
| AsyncMutex.AFailedRollbackIsTheLast | packages/cemp-database/src/node.ts:81-98 | after a failed ROLLBACK no transaction ever begins again: at most a close follows |
| AsyncMutex.ACloseInsideATransaction | packages/cemp-database/src/node.ts:81-126 | remark: a concrete run whose close falls inside a transaction |
| TransactionEndings.EachTransactionHasItsEnding | packages/cemp-database/src/node.ts:81-98 | after any run, for every transaction: BEGIN iff it came out well on a usable connection, COMMIT iff body and COMMIT then did, ROLLBACK, failed or not, iff one of them failed and the ROLLBACK came out so |
| TransactionEndings.AGoodCloseCloses | packages/cemp-database/src/node.ts:115-126 | the connection is closed iff some caller's close came out well |
| Crc32.UpdatesAreLinear | packages/cemp-lora/src/crc32.ts:11-21 | the eight-step update that fills the table respects xor |
| Crc32.FeedDivides | packages/cemp-lora/src/crc32.ts:24-30 | feeding message bits to the register is long division by the generator polynomial, given by its exponents |
| Crc32.MakeTable | packages/cemp-lora/src/crc32.ts:11-21 | the nested loops fill every entry with its eight updates |
| Crc32.Crc32 | packages/cemp-lora/src/crc32.ts:24-30 | for every byte string the table-driven loop returns the complemented remainder of the standard's polynomial division |

## Left out

- HTTP, JSON-RPC shape guards, the LoRa transport, native code, screens, SQL text, faucet and command-line steps.
- ML-DSA, ML-KEM, AES-GCM, BLAKE2b, Argon2, scrypt, BIP39 and CCC's coin selection and fee completion: functions with the laws named above.
- Codec internals of `@cemp/core` (envelope and manifest encodings): a manifest is the value the codec carries.
- Exactly-once capacity reservation, which the code does not promise: `#monitor` reserves on every resume and the pending worker may reserve for the same row.
- Guaranteed release for attachment groups: the generic scan may mark `reclaim-attachment:` records committed.
- An acknowledgement after every crash: a stop between `received` and the queueing of the response is not revisited, so `Ingestion` promises at most one, and one per uninterrupted pass.
- The walk of an answered message to `response_sent` after its response is published: for `Exchange` another move of its row.
- `trackBroadcastSpend` is an await without effect: the signer's cell cache is not modelled.
- Purposes.ReadPurposesNameRows: parts that are no digit strings count as malformed; JavaScript's `Number()` accepts some of them, such as `1e3`, which the code never writes.
- Floating-point rounding: tokens, elapsed time and scale factors are real numbers.
- Overlapping `publishText` calls for one message and overlapping vault calls.
- The auto-lock timer itself: a firing timer is a call of `lock`; zeroisation of buffers beyond dropping them.
- CCC's WitnessArgs decoder itself: any reader that accepts what `Molecule.ReadWitness` accepts, with the same fields, and refuses the empty witness.
- Which cell dependencies signing adds: the transaction hash of the model is the one after they were added.
- BackgroundSync.CountedOnce: counts notifications, not occurrences; an outpoint listed under two tags adds two to the number one notification shows.
- Exchange.TheExchangeIsBounded: identifies a message with its logical id; that at most one envelope of it commits is `Publisher.AtMostOneCommit`.
- Attachment rows of incoming messages and the envelope message id kept with a row: further store calls of ingestion with no bearing on its states.
- What a delivered acknowledgement does to the sender's rows is the matter of `Receipts`; in `Exchange` those are the other moves of a row.
- The ledger entries of chunk uploads and the retried reclaim of attachment groups (packages/cemp-images/src/reclaim.ts).
- Statements that reach the database outside `transaction` while a failed ROLLBACK has left one open.
- VaultStorage.StorageParsesExactly: auto-lock times are integers here; a fractional time, which a JavaScript number may be, is not modelled.
