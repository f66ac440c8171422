# Verified model of the oracle node's transaction manager and small protocols

The node sends transactions for its keys in two halves. The *broadcaster* (one per key) picks an
unstarted `eth_txes` row, gives it the key's next nonce, creates an attempt and hands it to an
Ethereum node. The *confirmer* (one in all, run on every new head) collects receipts, bumps gas,
gives up on what is never confirmed, and puts transactions back that a reorg took out of the chain.
Both work on the tables `eth_txes`, `eth_tx_attempts`, `eth_receipts` and `keys.next_nonce`, side by
side, against a node that may answer anything, and may crash between any two database transactions.

This project models that, and proves what the code's own "invariant violation" guards and comments
rely on. Smaller protocols and encodings of the same program follow.

| files | what they hold |
|---|---|
| `TxTables`, `TxTransactions` | the rows, the CHECK constraints, the queries, and every database transaction as one total atomic step on in-memory copies, as the code holds them |
| `TxInvariant`, `TxTheorems`, `TxExamples` | the inductive invariant over every log of transactions, what it means, and concrete runs to states the comments take to be impossible |
| `TxInterference`, `TxStore` | which process issues what, what may run next to what, and the store as an object whose tables others change between any two operations, with the histories of what was committed, sent and asked |
| `EthBroadcaster` | the broadcaster as a class, proved next to any number of other processes |
| `ConfirmerQueries`, `ConfirmerFrames`, `ConfirmerSending`, `ConfirmerBumping`, `ConfirmerReceipts`, `ConfirmerChecking`, `ConfirmerReorg`, `EthConfirmer` | the confirmer: its SQL and what it selects, its workers, its four steps, and one head from beginning to end |
| `ConfirmerParallel`, `ConfirmerExamples` | the forked workers side by side, and concrete runs around attempts that are being sent again |
| `GasPrice` | gas bumping and the bound on replacements |
| `RunQueue`, `HeadRing`, `HeadTracker`, `SleeperTask` | three small concurrent protocols as step systems over all interleavings, and the class the ring buffer feeds |
| `Bytes`, `EvmWords`, `EventTopics`, `Payload` | big-endian words, two's complement, the topic decoder, and calldata layout with a reader |
| `MaxBytes`, `GasUpdater`, `BoundedQueues` | the size-limited reader, the gas percentile over a rolling window, the bounded queues |
| `Options`, `Ordering`, `Sequences` | Option, ORDER BY with LIMIT on row ids, and counting in sequences |

## How concurrency is modelled

A `Transaction` is what one database transaction (or single statement) of the program does.
`Disciplined` says what its issuer guarantees about the copies it holds; `Store.Transact` demands it,
so each method of the broadcaster and the confirmer proves it at the moment it commits. A log is any
sequence of disciplined, committed transactions, so a crash is just the end of a log and a restart is
a method called on whatever tables are there. `OthersRun` stands for any number of transactions of the
processes that the advisory locks and wait groups allow next to the caller; callers know its contract
only. The store remembers, as ghost histories, every attempt handed to the node and every request for
a receipt or a nonce, each with its raw answer, every default gas price and time that was read, every
signature asked for, and how often the database could not be reached, be it by a query or a
transaction. Results that depend on what was said outside, and the causes of failures, are stated
about these. The workers that the confirmer forks (a transaction
each, or a key each) are proved for any siblings running next to them, and called one after the other;
`ConfirmerParallel` shows of every interleaving that the siblings are what the workers take them for.

## Hypotheses

- `ETH_GAS_BUMP_WEI` is at least 1 for the methods that may bump (`core/store/orm/config.go:108` refuses less than 5 GWei).
- For a forked bump worker next to siblings, `ETH_GAS_BUMP_TX_DEPTH` is positive: with depth 0 the query
  has no address filter (`eth_confirmer.go:413-422`).
- Nobody else writes `keys.next_nonce` or these tables.
- The window of the gas updater is at least 1 and its percentile between 0 and 100.
- Only finitely many transactions are inserted while a broadcaster drains its queue.

## Where code and comments differ

The model follows the code; each point has a lemma.

- A fatal answer right after a gas bump: `BroadcastAt` is already set in memory
  (`eth_broadcaster.go:271`), so `saveFatallyErroredTransaction` violates `chk_eth_txes_fsm` and is
  rolled back; the next poll finds the transaction still in progress (`SaveFatally`, `GuardsNeverFire`).
- "unconfirmed but didn't have any attempts" (`eth_confirmer.go:448-453`) is reachable
  (`UnconfirmedWithoutAttempts`).
- A transaction expires when the stamps it has are old (`eth_confirmer.go:296`), not when all its
  attempts are (275-284): MAX skips NULL. It is safe for broadcast attempts (`ExpiryIsSafe`,
  `AllAttemptsBuriedIff`, `ExpiryIgnoresUnsentAttempts`).
- `markConfirmedMissingReceipt` compares nonces across accounts (`eth_confirmer.go:261-269`): the
  comment's "same account" holds for a single key (`MarkedIff`, `OvertakenInOwnAccount`,
  `MarkedByAnotherAccount`).
- Called while an attempt is still to be sent again, `EnsureConfirmedTransactionsInLongestChain` can
  leave a receipt outside the chain: its query joins on state 'broadcast' (`eth_confirmer.go:647-652`),
  the comment (602-606) speaks of all confirmed transactions. `processHead` never calls it so, because
  bumping before it leaves nothing unsent (`OverlookedComesBack`, `OverlookedReceiptComesBack`,
  `EnsureConfirmedTransactionsInLongestChain`, `ProcessHead`).
- The head ring's drop is of the oldest head in the queue, not of the lowest: a re-org or a late head
  can push out the highest one (`HighestCanBeDropped`, `DroppedIff`, `HighestReachesCallbacks`).
- `unbroadcastAttempt` refuses a re-orged transaction whose dearest attempt ran out of eth, which stops
  the rest of that step (`MarkReorged`).
- `EVMWordSignedBigInt` rejects -2^255, an int256 value (`MostNegativeIsRejected`).
- `getTxData` assumes a prefix of none or one word, `insertEthTx` with an ABI encoding one of five
  (`PlainPayload`, `NestedPayload`; `PlainRecovered` and `NestedRecovered` say what a reader makes of any other).

## Model

| member | source | states |
|---|---|---|
| GasPrice.BumpIsLeastSufficient | core/services/bulletprooftxmanager/bulletprooftxmanager.go:167-192 | stated by arithmetic: BumpGas gives a price iff it is the least integer p with base * (100 + percent) < 100 * (p + 1) and base + bump <= p for both the original and the default price, is within ETH_MAX_GAS_PRICE_WEI and differs from the original; with a bump of 1 or more it fails iff no such price is within the limit |
| GasPrice.BumpRaises | core/services/bulletprooftxmanager/bulletprooftxmanager.go:180-189 | a successful bump raises by at least ETH_GAS_BUMP_WEI and respects the limit; with ETH_GAS_BUMP_WEI of 1 or more exceeding the limit is the only failure |
| GasPrice.ReplacementsAreBounded | core/services/bulletprooftxmanager/bulletprooftxmanager.go:167-192 | n bumps in a row, of whatever default prices, take first price + n * ETH_GAS_BUMP_WEI within the limit |
| TxTables.SqlMaxIsMaximum | core/services/bulletprooftxmanager/eth_confirmer.go:296 | SQL MAX over a nullable column: NULL iff all values are NULL, otherwise the greatest value that is not NULL |
| TxTables.AttemptsOfIsComplete | core/services/bulletprooftxmanager/eth_confirmer.go:145-147 | the preload returns all attempts of a transaction and nothing else, highest gas price first |
| TxTables.NextUnstartedIsFirst | core/services/bulletprooftxmanager/eth_broadcaster.go:371-377 | the next unstarted transaction precedes every other one of its address by value, then creation time, then id; none is found only if there is none |
| TxInvariant.StepKeepsInv | core/services/bulletprooftxmanager/eth_broadcaster.go:354-447 | every database transaction of every process, committed from any state that satisfies the invariant, leads to one that does: ids and keys, one in_progress transaction per address, gap-free ledgers, and for each transaction its stage, its prices, its receipts and its nonce |
| TxInvariant.RunsKeepInv | core/services/bulletprooftxmanager/eth_confirmer.go:75-103 | the invariant holds after every log of transactions, that is in every interleaving and at every crash point |
| TxInvariant.RowsFollowStateMachine | core/store/migrations/migration1601459029/migrate.go:29-36 | whatever a process saves, an eth_txes row only ever changes along the listed transitions, and new rows are unstarted |
| TxInvariant.OthersFrozen | core/services/bulletprooftxmanager/eth_confirmer.go:697-718 | a transaction on one eth_tx leaves the row, the attempts and the receipts of every other one alone |
| TxInvariant.SaveInProgressTxKeeps | core/services/bulletprooftxmanager/eth_broadcaster.go:354-369 | saveInProgressTransaction keeps the tables of its eth_tx consistent |
| TxInvariant.SaveUnconfirmedKeeps | core/services/bulletprooftxmanager/eth_broadcaster.go:379-406 | saveUnconfirmed keeps the tables of its eth_tx consistent |
| TxInvariant.SaveFatallyErroredKeeps | core/services/bulletprooftxmanager/eth_broadcaster.go:431-447 | saveFatallyErroredTransaction keeps the tables of its eth_tx consistent |
| TxInvariant.SaveReplacementKeeps | core/services/bulletprooftxmanager/bulletprooftxmanager.go:148-161 | saveReplacementInProgressAttempt keeps prices distinct and the unsent attempt the dearest |
| TxInvariant.SaveReceiptKeeps | core/services/bulletprooftxmanager/eth_confirmer.go:216-243 | saveReceipt keeps the tables of its eth_tx consistent: at most one receipt, and only with a confirmed row; SavingReceipt states what it brings about |
| TxInvariant.SaveInProgressAttemptKeeps | core/services/bulletprooftxmanager/eth_confirmer.go:458-463 | saveInProgressAttempt, for a new attempt or a resubmitted one, keeps prices distinct and the unsent attempt the dearest |
| TxInvariant.MarkForRebroadcastKeeps | core/services/bulletprooftxmanager/eth_confirmer.go:676-718 | markForRebroadcast keeps the tables of its eth_tx consistent |
| TxInvariant.BulkKeeps | core/services/bulletprooftxmanager/eth_confirmer.go:108-113 | the three table-wide updates (stamping, marking as missing, expiring) keep every eth_tx consistent |
| TxInvariant.MaxConfirmedIsConfirmed | core/services/bulletprooftxmanager/eth_confirmer.go:265-268 | the sub-select of markConfirmedMissingReceipt is the nonce of a confirmed transaction and at least that of every other one |
| TxInvariant.SpentFollows | core/services/bulletprooftxmanager/eth_broadcaster.go:391-399 | a ledger of used nonces gains exactly one entry when a transaction is saved as unconfirmed and never otherwise |
| TxInterference.OthersRely | core/services/bulletprooftxmanager/eth_broadcaster.go:176-180 | what any one transaction of a concurrent process can do to a process: its own transactions stay as they are, newcomers arrive fresh, a broadcaster's next_nonce stays |
| TxInterference.RelyOnOthers | core/services/bulletprooftxmanager/eth_confirmer.go:69-73 | the same for any number of transactions of any processes the advisory locks allow next to it |
| TxTheorems.NoncesAreDistinct | core/services/bulletprooftxmanager/eth_broadcaster.go:379-406 | in every reachable state two live transactions of one address hold distinct nonces, the in_progress one next_nonce, the others one between the first loaded nonce and next_nonce |
| TxTheorems.NoNonceIsSkipped | core/services/bulletprooftxmanager/eth_broadcaster.go:507-517 | each nonce from the first loaded one up to next_nonce belongs to exactly one transaction that reached unconfirmed |
| TxTheorems.EachNonceIsHandedOverOnce | core/services/bulletprooftxmanager/eth_broadcaster.go:391-399 | counted over the log of any run: each such nonce was handed over exactly once, any other never |
| TxTheorems.FatalErrorLeavesNoGap | core/services/bulletprooftxmanager/eth_broadcaster.go:431-447 | a fatal send error frees its nonce: next_nonce and the ledgers do not move, and nothing of the address is in progress |
| TxTheorems.UnsentAttemptIsDearest | core/services/bulletprooftxmanager/eth_confirmer.go:528-533 | the "system constraint": attempt prices of a transaction are distinct, and one that is not broadcast is the only such one and strictly the dearest |
| TxTheorems.UniqueIndexesHold | core/store/migrations/migration1589206996/migrate.go:41-95 | the unique indexes on nonces, in_progress rows, in_progress attempts and gas prices hold in every reachable state without being enforced |
| TxTheorems.OneReceiptAndConfirmed | core/services/bulletprooftxmanager/eth_confirmer.go:224-240 | at most one receipt per transaction, which is then confirmed; so the insert never meets a conflict |
| TxTheorems.MarkedIff | core/services/bulletprooftxmanager/eth_confirmer.go:260-271 | an unconfirmed transaction is marked as missing its receipt iff some confirmed transaction, of any account, has a higher nonce |
| TxTheorems.OvertakenInOwnAccount | core/services/bulletprooftxmanager/eth_confirmer.go:245-259 | with a single sending key a marked transaction was overtaken by a confirmed one of its own account |
| TxTheorems.GuardsNeverFire | core/services/bulletprooftxmanager/eth_broadcaster.go:256-259 | from every consistent state, exactly when each transaction is rolled back: no guard on states or ids ever fires but that of unbroadcastAttempt, and the CHECK constraints only for a fatal error that is empty or comes after a bump, a broadcast time before 2019, and block numbers below 1 |
| TxTheorems.CommitsByColumn | core/services/bulletprooftxmanager/eth_broadcaster.go:354-447 | although whole copies are saved that may have been read long before, each transaction on one eth_tx or attempt changes exactly the columns it is meant to, on the rows as the tables have them, and nothing else |
| TxTheorems.OnlyNextNonceIsHandedOver | core/services/bulletprooftxmanager/eth_broadcaster.go:379-406 | saveUnconfirmed goes through only for the address's next_nonce, which it raises by one; so a transaction started with the nonce 0 that a failing loadAndSaveNonce returns is never handed over |
| TxInvariant.RunIsLater | core/services/bulletprooftxmanager/eth_broadcaster.go:379-406 | between any two positions of a log rows keep their addresses, ledgers only grow at their end, and fatal rows stay fatal |
| TxExamples.UnconfirmedWithoutAttempts | core/services/bulletprooftxmanager/eth_confirmer.go:448-453 | the "invariant violation" branch of newAttemptWithGasBump is reachable: a run that leaves an unconfirmed transaction without attempts |
| TxExamples.MarkedByAnotherAccount | core/services/bulletprooftxmanager/eth_confirmer.go:261-269 | a run with two keys in which a transaction is marked as missing although nothing of its own account was ever confirmed |
| TxStore.Store.Interleave | core/services/bulletprooftxmanager/eth_broadcaster.go:176-180 | other processes commit any number of transactions: the caller's rely condition holds, and the backlog of an address grows only by inserts |
| TxStore.Store.Transact | core/services/bulletprooftxmanager/eth_broadcaster.go:362-368 | a transaction commits as a whole or not at all, and is refused only for the reasons GuardsNeverFire lists |
| TxStore.Store.SendTransaction | core/services/bulletprooftxmanager/bulletprooftxmanager.go:101-119 | the attempt is handed to the node while others run; there is no error iff the node gave none or says that the transaction is already known, and any other error is passed on as it is; attempt and raw answer go on record, and nobody else sends or replaces attempts of this transaction meanwhile |
| TxStore.Store.DearerOffer | core/services/bulletprooftxmanager/eth_broadcaster.go:408-421 | reads the default price, which goes on record; success is the least sufficient price for it and a granted signature, a failed bump means that no sufficient price is within the limit, and the only other failure is a refused signature |
| TxStore.Store.Reach | core/services/bulletprooftxmanager/eth_confirmer.go:393-402 | a query fails only when the database cannot be reached, which goes on record |
| TxStore.ConversationIsPaid | core/services/bulletprooftxmanager/bulletprooftxmanager.go:167-192 | a conversation in which every further attempt costs the least sufficient price over the one before is at most (limit - first price) / ETH_GAS_BUMP_WEI replacements long |
| TxStore.Store.FetchReceipt | core/services/bulletprooftxmanager/eth_confirmer.go:206-214 | the node is asked about one hash while others run; question and answer go on record, and nobody else asks about this or another transaction of the caller |
| EthBroadcaster.GetInProgressIsConsistent | core/services/bulletprooftxmanager/eth_broadcaster.go:241-252 | getInProgressEthTx finds the in_progress transaction with its one unsent attempt or there is none; its guard never fires |
| EthBroadcaster.Broadcasting.HandleInProgressEthTx | core/services/bulletprooftxmanager/eth_broadcaster.go:256-332 | a conversation with the node starts with the attempt; each further attempt was sent because the node asked for more, saved as a replacement, and costs the least sufficient price for the default price read then; on nil the last committed transaction closes the eth_tx as the last answer asks (unconfirmed with that attempt and broadcast time, or fatal with that message); each kind of failure has its cause on record: an outage, a refused signature, a bump with no sufficient price within the limit, an answer that asks for nothing, or a CHECK |
| EthBroadcaster.AnswersInFlags | core/services/bulletprooftxmanager/eth_broadcaster.go:256-332 | in flags of the node's raw answer: which answers count as sent, which ask for a dearer attempt, and which leave the transaction for the next poll |
| EthBroadcaster.AlreadyKnownIsHandedOver | core/services/bulletprooftxmanager/bulletprooftxmanager.go:114-117 | when the node's last raw answer is that it knows the transaction, it is saved as unconfirmed with that attempt, unless the database cannot be reached or the broadcast time is before 2019 |
| EthBroadcaster.Broadcasting.TryAgainWithHigherGasPrice | core/services/bulletprooftxmanager/eth_broadcaster.go:408-429 | the same for the rest of the conversation: nil takes a saved replacement at the least sufficient price and its answer; the "ceiling" branch cannot be taken |
| EthBroadcaster.Broadcasting.SaveFatally | core/services/bulletprooftxmanager/eth_broadcaster.go:264-268 | saves the error and clears the transaction unless BroadcastAt is already set in memory, in which case chk_eth_txes_fsm always turns it down |
| EthBroadcaster.Broadcasting.NextNonce | core/services/bulletprooftxmanager/eth_broadcaster.go:461-497 | returns next_nonce, loading it from the node at first use; it stays the address's next nonce while others run, and what is unstarted stays so; it fails only on an outage or after the node refused a nonce request of this address |
| EthBroadcaster.Broadcasting.HandleAnyInProgressEthTx | core/services/bulletprooftxmanager/eth_broadcaster.go:224-235 | after a crash: the transaction that was in progress on entry, with the attempt it had then, is sent again and the conversation about it ends as in HandleInProgressEthTx; every failure has its cause on record |
| EthBroadcaster.Broadcasting.NextUnstartedWithNonce | core/services/bulletprooftxmanager/eth_broadcaster.go:336-352 | returns the row that was first in line when the query ran, a position in the log, with next_nonce filled in and still unstarted on return, or finds that there was none; it fails only on an outage or a refused nonce request |
| EthBroadcaster.Broadcasting.ProcessNext | core/services/bulletprooftxmanager/eth_broadcaster.go:197-219 | one round: the transaction that was first in line at a position in the log was sent, at the default price read for it, and closed as the node's last answer asks, with the time read before sending, and the backlog shrank; or nothing is unstarted; every failure has its cause on record |
| EthBroadcaster.Broadcasting.ProcessUnstartedEthTxs | core/services/bulletprooftxmanager/eth_broadcaster.go:186-220 | first what was in progress on entry was sent and closed as the node's last answer asks; then it works in rounds that follow each other without a gap, each as in ProcessNext; terminates for finitely many inserts; on nil nothing of the address is unstarted or in progress; a failure means an outage, a refused nonce request or signature, a bump over the limit, or a last answer that leaves the transaction open, is fatal, or was accepted with a time before 2019; with none of these on record it succeeds |
| EthBroadcaster.NothingWrongMeansOk | core/services/bulletprooftxmanager/eth_broadcaster.go:186-220 | with no outage, every answer about the address accepted, every signature and nonce granted and all times after 2019, no failure is possible |
| ConfirmerQueries.RequiringNewAttemptMeans | core/services/bulletprooftxmanager/eth_confirmer.go:408-427 | the anti-join returns, for a positive depth, exactly those among the address's depth oldest unconfirmed transactions whose every attempt is insufficient_eth or was broadcast threshold or more blocks ago; for depth 0 those of all addresses |
| ConfirmerQueries.RequiringNewAttemptInNonceOrder | core/services/bulletprooftxmanager/eth_confirmer.go:422 | in nonce order, each once |
| ConfirmerQueries.ExpiresIff | core/services/bulletprooftxmanager/eth_confirmer.go:289-298 | a transaction expires iff it is missing its receipt, some attempt is stamped and every stamp is below the cutoff |
| ConfirmerQueries.ExpiryIsSafe | core/services/bulletprooftxmanager/eth_confirmer.go:273-279 | if its broadcast attempts are stamped together, all of them predate the cutoff when it expires |
| ConfirmerQueries.AllAttemptsBuriedIff | core/services/bulletprooftxmanager/eth_confirmer.go:281-284 | the documented promise, that all attempts are older than the cutoff, holds of an expired transaction iff it has no unstamped attempt |
| ConfirmerQueries.ConfirmedRowsAreDistinct | core/services/bulletprooftxmanager/eth_confirmer.go:645-658 | the joins yield one row per transaction, and it is confirmed |
| ConfirmerSending.KeyWork.HandleInProgressAttempt | core/services/bulletprooftxmanager/eth_confirmer.go:465-572 | a conversation with the node as the broadcaster's, each replacement at the least sufficient price for the default price read then; on nil the last committed transaction settles the last attempt as the last answer asks (sent, deleted, out of eth) and nothing of the transaction is left unsent; each kind of failure has its cause on record; other transactions are untouched |
| ConfirmerSending.AnswersInFlags | core/services/bulletprooftxmanager/eth_confirmer.go:465-572 | in flags of the node's raw answer: which answers count as sent, which ask for a dearer attempt, and which leave the attempt for the next head |
| ConfirmerSending.AlreadyKnownIsSent | core/services/bulletprooftxmanager/bulletprooftxmanager.go:114-117 | when the node's last raw answer is that it knows the attempt, it is saved as sent, unless the database cannot be reached |
| ConfirmerSending.KeyWork.Reprice | core/services/bulletprooftxmanager/eth_confirmer.go:472-494 | after a terminally underpriced answer: nil takes a saved replacement at the least sufficient price and goes on with the conversation from there |
| ConfirmerSending.KeyWork.HandleAnyInProgressAttempts | core/services/bulletprooftxmanager/eth_confirmer.go:381-402 | on nil every attempt of the key that was left unsent was sent again, none is left, and other keys are untouched; every failure has its cause on record |
| ConfirmerBumping.NextAttemptIsDearest | core/services/bulletprooftxmanager/eth_confirmer.go:429-456 | the next attempt is the dearest one again iff that ran out of eth or cannot be bumped, else a new one at the bumped price; either way it may be saved and outbids all others |
| ConfirmerBumping.NextIsOffered | core/services/bulletprooftxmanager/eth_confirmer.go:429-456 | stated without BumpGas: the next attempt is the dearest one again, at its price, if that ran out of eth or no sufficient price for the default price read is within the limit; else it is a new one at the least sufficient price; without any attempt it is a new one at the default price |
| ConfirmerBumping.OfferOutbids | core/services/bulletprooftxmanager/eth_confirmer.go:448-456 | such an attempt costs at least what every other one of the transaction does, and at least ETH_GAS_BUMP_WEI more if it is a new one |
| ConfirmerBumping.FrozenLoads | core/services/bulletprooftxmanager/eth_confirmer.go:410-413 | a row loaded earlier is what would be loaded now as long as nobody touched it |
| ConfirmerBumping.StillFound | core/services/bulletprooftxmanager/eth_confirmer.go:408-427 | what the query would have found at one time it finds at every later one, for transactions left alone meanwhile: newcomers have higher nonces, so they push nobody out of the depth oldest |
| ConfirmerBumping.GasBumping.BumpOne | core/services/bulletprooftxmanager/eth_confirmer.go:363-376 | the attempt of NextIsOffered was saved and sent, for the transaction as it was on entry and a default price read since; the row and all attempts but the dearest stay, and nothing is left unsent; every failure has its cause on record |
| ConfirmerBumping.GasBumping.BumpGasWhereNecessary | core/services/bulletprooftxmanager/eth_confirmer.go:348-377 | on nil nothing of the key is left unsent, and everything the query found at its position in the log, among it all that was due on entry, had the attempt of NextIsOffered sent; keys that had nothing unsent still have nothing unsent; every failure has its cause on record |
| ConfirmerReceipts.ReceiptWork.FetchReceipts | core/services/bulletprooftxmanager/eth_confirmer.go:169-204 | what the node was asked about this transaction, and answered, goes through its attempts dearest first until the answer is anything but "not found"; iff the last answer has a block number and the attempt's hash and the database can be reached, the transaction is confirmed and its one receipt is for the attempt asked about, with the block hash and number that the node named; otherwise nothing changes |
| ConfirmerReceipts.SavingReceipt | core/services/bulletprooftxmanager/eth_confirmer.go:216-243 | saveReceipt: confirmed, with that receipt as its only one, attempts untouched |
| ConfirmerChecking.StampingStampsAll | core/services/bulletprooftxmanager/eth_confirmer.go:108-113 | exactly the broadcast attempts without a stamp get one |
| ConfirmerChecking.AllStampedByOthers | core/services/bulletprooftxmanager/eth_confirmer.go:108-113 | broadcasters running on cannot leave a transaction with some broadcast attempts stamped and some not |
| ConfirmerChecking.ExpiringIsBuried | core/services/bulletprooftxmanager/eth_confirmer.go:289-298 | what the expiry statement changes had all its broadcast attempts stamped below the cutoff |
| ConfirmerChecking.Checking.SetBroadcastBeforeBlockNum | core/services/bulletprooftxmanager/eth_confirmer.go:108-113 | on success every transaction of the confirmer is as it was on entry but for its unstamped broadcast attempts, which have the block number, as have all of those handed over meanwhile; it fails only on an outage, or on a constraint for block numbers below 1 |
| ConfirmerChecking.Checking.CheckForReceipts | core/services/bulletprooftxmanager/eth_confirmer.go:119-141 | unless the query for them met an outage, every transaction that waits for a receipt was asked about, and is confirmed by one receipt with the block that the node named unless the database failed, and not confirmed if none was found; each stays, gets its one receipt, is marked because it was overtaken, or expires with all its broadcast attempts below head minus finality depth; on nil none is left that should have been marked or expired; it fails only on an outage |
| ConfirmerReorg.HasReceiptInLongestChain | core/services/bulletprooftxmanager/eth_confirmer.go:660-674 | true iff some receipt equals some block of the chain in hash and number |
| ConfirmerReorg.EarliestInChain | core/store/models/eth.go:129-138 | the last head of the chain |
| ConfirmerReorg.OutOfChainIff | core/services/bulletprooftxmanager/eth_confirmer.go:613-619 | what the loop decides is whether the transaction's one receipt is outside the chain |
| ConfirmerReorg.MarkingRebroadcasts | core/services/bulletprooftxmanager/eth_confirmer.go:676-718 | unconfirmed, no receipts, the dearest attempt reset to unsent without a stamp, all others as they were |
| ConfirmerReorg.AllJudged | core/services/bulletprooftxmanager/eth_confirmer.go:645-658 | what the query overlooks is not out of the chain: marking what it finds leaves only receipts in the chain |
| ConfirmerReorg.Reorg.MarkReorged | core/services/bulletprooftxmanager/eth_confirmer.go:607-619 | on nil exactly the transactions out of the chain were marked, others untouched; it fails only on an outage, or if one of them has an attempt that was never broadcast |
| EthConfirmer.Confirmer.HandleKeys | core/services/bulletprooftxmanager/eth_confirmer.go:621-642 | every key is handled even if others fail: in its own turn each worker either left nothing of its key unsent and sent all that was left, or failed with the cause on record in that turn; the first failure is returned; on nil nothing of the keys is left unsent and all that was left on entry was sent |
| EthConfirmer.Confirmer.BumpGasWhereNecessary | core/services/bulletprooftxmanager/eth_confirmer.go:322-346 | on nil nothing of the keys is left unsent and, for each key, everything the query would have found on entry had the attempt of NextIsOffered sent, for itself as it was on entry; with a positive depth transactions of other keys are as they were; every key is bumped even if others fail, each failure with its cause on record in its own turn |
| EthConfirmer.NoTroubleNoFailure | core/services/bulletprooftxmanager/eth_confirmer.go:322-346 | with no outage, every signature granted and every answer one that settles its attempt, no key can fail |
| EthConfirmer.FoundIsInChainIff | core/services/bulletprooftxmanager/eth_confirmer.go:660-674 | a transaction just confirmed by an answer counts as re-orged iff its attempt is broadcast, and the block that the node named has a number the known chain reaches down to and is not in it |
| EthConfirmer.Confirmer.FoundInChainIsKept | core/services/bulletprooftxmanager/eth_confirmer.go:85-103 | what the receipt step confirms in a block of the head's chain is not taken for re-orged by the last step |
| EthConfirmer.Confirmer.EnsureConfirmedTransactionsInLongestChain | core/services/bulletprooftxmanager/eth_confirmer.go:607-643 | on nil each re-orged transaction is unconfirmed without receipts, with only its dearest attempt reset and resent, all others at most had an unfinished attempt finished, and every receipt on a broadcast attempt at or above the chain's earliest height is in the chain, unless it sat on an attempt of our keys that was in_progress on entry |
| EthConfirmer.OverlookedComesBack | core/services/bulletprooftxmanager/eth_confirmer.go:607-642 | and such a receipt does come back: the marking passes its transaction by, and once its attempt counts as sent it is a confirmed row again, in the chain or not |
| EthConfirmer.Confirmer.ProcessHead | core/services/bulletprooftxmanager/eth_confirmer.go:76-106 | the four steps one after the other, each from the moment on record where the one before it ended: stamped with the head's number; asked about, confirmed, marked or expired; everything due had its next attempt sent; everything out of the chain put back and resent. On nil all such receipts are in the chain and nothing of the keys is unsent; the only refusals are for head numbers below 1 and by unbroadcastAttempt, and every other failure had its cause on record |
| ConfirmerParallel.KeyWorkersMayRely | core/services/bulletprooftxmanager/eth_confirmer.go:330-345 | in every interleaving of workers forked for several keys with everybody else: while a worker commits nothing, its transactions stay as they are and newcomers are fresh, which is what each worker's own proof assumes |
| ConfirmerParallel.ReceiptWorkersMayRely | core/services/bulletprooftxmanager/eth_confirmer.go:154-167 | the same for the workers that fetch receipts, one transaction each |
| ConfirmerParallel.NothingLeftAtTheJoin | core/services/bulletprooftxmanager/eth_confirmer.go:621-642 | if every forked worker was through with nothing of its key unsent at some point, nothing of any of the keys is unsent at the join, whatever the order they ran in, and other keys are untouched |
| ConfirmerParallel.StillRebidAtTheJoin | core/services/bulletprooftxmanager/eth_confirmer.go:322-346 | what a forked worker resent or outbid is still so at the join |
| ConfirmerExamples.OverlookedReceiptComesBack | core/services/bulletprooftxmanager/eth_confirmer.go:602-643 | a reachable state in which a receipt outside the chain sits on an in_progress attempt: the query passes it by, and sending the attempt again makes it a confirmed row outside the chain |
| ConfirmerExamples.ExpiryIgnoresUnsentAttempts | core/services/bulletprooftxmanager/eth_confirmer.go:281-296 | a run after which a transaction expires while its dearest attempt is waiting to be sent: MAX skips NULL |
| RunQueue.Counters.IncrementQueue | core/services/run_queue.go:66-75 | one more run is pending for this id and nothing else changes, only ids with something pending have an entry, and it says whether this id had none |
| RunQueue.Counters.DecrementQueue | core/services/run_queue.go:77-89 | one run less is pending for this id and nothing else changes, only ids with something pending keep an entry, and it says whether this id has none left |
| RunQueue.CountingIsUpdating | core/services/run_queue.go:66-89 | the updates of the step system are the only ones that count one more and one less |
| RunQueue.IncrementThenDecrement | core/services/run_queue.go:66-89 | what a Run adds to the counters the end of an Execute takes away again |
| RunQueue.Counters.WorkerCount | core/services/run_queue.go:122-127 | the number of ids with something pending |
| RunQueue.StepKeepsId | core/services/run_queue.go:92-119 | each step of each caller and worker keeps the counter of a run id equal to its accepted runs not yet executed, with one goroutine responsible |
| RunQueue.OneWorkerEach | core/services/run_queue.go:98-118 | in every interleaving at most one worker per run id, and one exactly while the counter is positive |
| RunQueue.ExecuteFollowsRun | core/services/run_queue.go:108-117 | the m-th Execute of an id starts after its m-th accepted Run |
| RunQueue.DrainedIsExecuted | core/services/run_queue.go:77-89 | once drained, as many Executes as accepted Runs |
| RunQueue.NoRunIsLost | core/services/run_queue.go:108-117 | once drained, an Execute started after every accepted Run |
| HeadRing.SendsNeverBlock | core/services/head_tracker.go:80-113 | with a buffer of at least 1 no send blocks, whatever the consumer does |
| HeadRing.UnbufferedGetsStuck | core/services/head_tracker.go:93-110 | with a buffer of 0 the plain send can be reached with nobody to take the head |
| HeadRing.NothingIsLost | core/services/head_tracker.go:92-110 | received = delivered + dropped + queued + in hand, in order, as a sequence, as counts and as multisets |
| HeadRing.DeliveredInOrder | core/services/head_tracker.go:80-113 | the delivered heads are an in-order subsequence of those received |
| HeadRing.NewestSurvives | core/services/head_tracker.go:92-110 | the newest head is queued last or was the last one delivered |
| HeadRing.DropsMakeRoom | core/services/head_tracker.go:101-110 | a head is dropped one at a time and only for a newer one |
| HeadRing.DroppedIff | core/services/head_tracker.go:92-110 | the k-th head received is dropped iff in some round of the run the inner select runs with that head in front of the channel |
| HeadTracker.Tracker.HandleNewHead | core/services/head_tracker.go:317-368 | a head reaches the callbacks only if it is higher than all handled before, and always if nothing fails |
| HeadTracker.Tracker.ReceiveHeaders | core/services/head_tracker.go:294-315 | from any state, so also after a resubscription: without errors the callbacks get exactly the running records of what was received, compared with the highest head seen before; on an error exactly those up to the head it stopped at |
| HeadTracker.Tracker.CallbacksIncrease | core/services/head_tracker.go:339-341 | heads given to callbacks have strictly increasing numbers, whatever failed in between |
| HeadTracker.SeeingMore | core/services/head_tracker.go:294-341 | receiving heads in two goes gives the same records and the same highest head as in one |
| HeadTracker.HighestReachesCallbacks | core/services/head_tracker.go:80-113 | the strictly highest head received reaches the callbacks, and is the last to do so, iff the ring delivered it |
| HeadTracker.HighestCanBeDropped | core/services/head_tracker.go:92-110 | a run with a buffer of 1 in which head 10 is dropped for head 9: not the highest but the newest head is safe |
| HeadTracker.NewestReachesCallbacks | core/services/head_tracker.go:80-113 | once the ring is empty the newest head received, if it is the highest, was the last one given to the callbacks |
| SleeperTask.StepKeepsInv | core/utils/sleeper_task.go:56-77 | each step of each caller, of the loop and of Stop keeps the counts of WakeUps and Works and the pending wake-up in step |
| SleeperTask.WorksAreBounded | core/utils/sleeper_task.go:66-77 | Works never overlap and are never more than the WakeUps |
| SleeperTask.WakeUpIsNotLost | core/utils/sleeper_task.go:24-30 | until a Work starts after a WakeUp the slot is full and the loop can only work, unless told to exit |
| SleeperTask.AtRestAllServed | core/utils/sleeper_task.go:24-30 | when the loop rests without having been told to exit, a Work started after every WakeUp |
| SleeperTask.WakeUpNeverBlocks | core/utils/sleeper_task.go:56-64 | every step of a WakeUp is enabled; it panics iff Stop came before its check |
| SleeperTask.StoppingLosesWakeUps | core/utils/sleeper_task.go:70-75 | after Stop a WakeUp may stay unserved |
| Bytes.BitLenIff | core/utils/ethabi.go:241 | BitLen is at most k iff the number is below 2^k |
| EvmWords.UnsignedRoundTrip | core/utils/ethabi.go:253-262 | EVMWordBigInt encodes exactly the numbers from 0 to 2^256 - 1, in 32 bytes that read back as the number |
| EvmWords.Uint128RoundTrip | core/utils/ethabi.go:227-235 | EVMWordUint128 encodes exactly the numbers from 0 to 2^128 - 1, in 32 bytes that read back as the number |
| EvmWords.SignedIsTwosComplement | core/services/eth/geth_copied.go:119-123 | the int256 arithmetic of parseTopics is two's complement, and nothing else is |
| EvmWords.SignedRoundTrip | core/utils/ethabi.go:239-249 | EVMWordSignedBigInt encodes exactly the numbers with an absolute value below 2^255, and parseTopics reads them back |
| EvmWords.WordRoundTrip | core/utils/ethabi.go:239-262 | every word but one is the encoding of what it is read as |
| EvmWords.MostNegativeIsRejected | core/utils/ethabi.go:241-243 | -2^255 is an int256 value and is rejected |
| EvmWords.EVMBytesToUint64 | core/utils/utils.go:802-808 | the loop yields the big-endian value modulo 2^64 for input of any length |
| EvmWords.Uint64RoundTrip | core/utils/ethabi.go:220-224 | EVMWordUint64 is inverted by EVMBytesToUint64's value |
| EventTopics.ReadInt256 | core/services/eth/geth_copied.go:116-123 | the in-place arithmetic yields the two's complement value of the topic |
| EventTopics.ParseTopics | core/services/eth/geth_copied.go:41-141 | a count mismatch changes nothing; else fields are set in order up to the first bad one, each to its topic's value |
| EventTopics.SignedFieldRoundTrip | core/services/eth/geth_copied.go:72-86 | a signed field of any width reads back what EVMWordSignedBigInt wrote |
| EventTopics.UnsignedFieldRoundTrip | core/services/eth/geth_copied.go:88-102 | an unsigned field of any width reads back what EVMWordBigInt wrote |
| EventTopics.BigFieldRoundTrip | core/services/eth/geth_copied.go:116-125 | int256 and uint256 fields read back every number that can be encoded, which are those with an absolute value below 2^255 and those from 0 to 2^256 - 1 |
| EventTopics.AddressFieldRoundTrip | core/services/eth/geth_copied.go:110-113 | an address field reads back the 20 bytes that were left-padded to a word; a topic that reads as the address is that word iff it is below 2^160 |
| EventTopics.FixedBytesFieldRoundTrip | core/services/eth/geth_copied.go:131-132 | a fixed byte array reads back its own bytes from the front of the word, and a hash the whole word |
| EventTopics.BoolFieldRoundTrip | core/services/eth/geth_copied.go:68-71 | a bool field that starts out false reads back EVMWordUint64 of 0 or 1 |
| Payload.EncodedLength | core/utils/ethabi.go:60-75 | EVMEncodeBytes takes whole words: one for the length, the bytes, and less than a word of padding |
| Payload.EncodeAndRead | core/utils/ethabi.go:68-75 | a reader following the ABI specification recovers the bytes wherever they stand and whatever follows |
| Payload.EncodingIsPrefixFree | core/utils/ethabi.go:68-75 | no encoding is the beginning of another; different inputs never look alike |
| Payload.ReadIsEncoded | core/utils/ethabi.go:68-75 | the reader accepts nothing but encodings |
| Payload.PlainPayload | core/adapters/eth_tx.go:346-368 | getTxData's offset points behind the head iff the prefix is empty or one word, and then the argument is recovered |
| Payload.PrefixMakesBytes | core/adapters/eth_tx.go:353-355 | with a prefix every format but the unspecified one is laid out as bytes |
| Payload.OneWordPayload | core/adapters/eth_tx.go:349-368 | a one-word argument without a prefix is all there is, and is read back from its place |
| Payload.UnspecifiedPayload | core/adapters/eth_tx.go:345-347 | with no format the result word itself stands behind the prefix, however it would be encoded |
| Payload.NestedPayload | core/adapters/eth_tx.go:134-142 | insertEthTx's offset is right iff the prefix is five words, and then exactly the nested calldata is recovered |
| Payload.PlainRecovered | core/adapters/eth_tx.go:346-368 | for a prefix of any length: the argument is recovered iff the prefix is empty or one word, or longer than a word and the encoding repeats the rest of the head from the third word on |
| Payload.NestedRecovered | core/adapters/eth_tx.go:134-142 | the same for the nested calldata, with five words and the seventh |
| Payload.AtMostOneRecovered | core/adapters/eth_tx.go:353-365 | so under any prefix that does not fit a reader recovers at most one input |
| Payload.ShortPrefixMisleads | core/adapters/eth_tx.go:353-365 | and under one of less than a word, or of more than one and at most two less eight bytes, none |
| Payload.RecoveredIff | core/utils/ethabi.go:68-75 | the general form: an offset and an encoding behind any prefix lead a reader to the input iff the offset counts the head right, or counts too little and the encoding repeats what stands between |
| Payload.TwoWordPrefixMisleads | core/adapters/eth_tx.go:356-365 | with a two-word prefix a reader takes the offset word for the length and recovers one input only: that word, twice |
| MaxBytes.MaxBytesReader.Read | core/utils/http.go:207-243 | one read hands on the next part of the body; EOF only at the end of a body within the limit, too-large only for a longer one or for reading on after EOF |
| MaxBytes.ReadAll | core/utils/http.go:193-253 | over any chunking, with EOF alone or together with data: the exact body iff it fits the limit, the too-large error otherwise |
| MaxBytes.ReadResponse | core/utils/http.go:142-151 | the same for a reader made for a body and a limit: the outcome is decided by the length alone unless the source breaks |
| GasUpdater.SortedIsOrderStatistic | core/services/gas_updater.go:132-138 | indexing the sorted prices picks the order statistic of the prices |
| GasUpdater.OrderStatisticIsUnique | core/services/gas_updater.go:132-138 | there is only one such price |
| GasUpdater.Int64Means | core/services/gas_updater.go:129 | a price counts with its low 64 bits as a signed number, which is the price itself iff it is an int64 |
| GasUpdater.IndexRoundsDown | core/services/gas_updater.go:133 | the rank k asked for is the one with 100 k <= (n - 1) p < 100 (k + 1) |
| GasUpdater.ExtremePercentiles | core/services/gas_updater.go:125-139 | percentile 0 picks the smallest price and 100 the largest |
| GasUpdater.Updater.PercentileGasPrice | core/services/gas_updater.go:125-139 | the floor((n-1)p/100)-th smallest price of the window; no index is out of range |
| GasUpdater.Updater.OnNewLongestChain | core/services/gas_updater.go:87-123 | the window is exactly the last size non-empty blocks fetched; the default changes iff a further block comes in after a full window and the window's percentile is within the maximum and can be stored, and then to that percentile |
| GasUpdater.EmptyWindowHasNoPercentile | core/services/gas_updater.go:109-113 | with a window of size 0 there is no price to pick |
| BoundedQueues.BoundedQueue.Add | core/utils/utils.go:595-603 | the last capacity items remain |
| BoundedQueues.BoundedPriorityQueue.Add | core/utils/utils.go:651-661 | adds to that priority only; an unknown priority changes nothing and is reported (the source panics) |
| BoundedQueues.BoundedPriorityQueue.Take | core/utils/utils.go:663-675 | takes the oldest item of the smallest non-empty priority |
| BoundedQueues.AddedIsGoneOrHeld | core/utils/utils.go:582-675 | over any sequence of Add and Take, per priority: added = left (oldest first) followed by held, and held is within the capacity |
| BoundedQueues.TakesTheFirst | core/utils/utils.go:663-675 | Take gives the oldest item of the smallest non-empty priority, and nothing only if all are empty |

## Left out

- Ethereum RPC, signing, RLP and hashing: an attempt's id stands for its hash, so the unique index on hashes is taken from fresh ids.
- The classification of node errors: an answer is any combination of the flags the code asks for.
- ForceRebroadcast and sendEmptyTransaction: they bypass the tables on purpose.
- RemoveUnstartedTransactions, subscriptions to inserts, polling timers, metrics and logging.
- TxTransactions.Execute: recipient, payload, gas limit, time stamps and transaction index never matter to the state machine and are not columns of the model; the unique indexes are not guards of it, UniqueIndexesHold shows they need not be.
- EthBroadcaster.Broadcasting.NextNonce: leaves out a failing UPDATE in loadAndSaveNonce, where the source wraps a nil error and returns 0 with no error (`eth_broadcaster.go:479-482`); OnlyNextNonceIsHandedOver says what saveUnconfirmed then prevents.
- EthBroadcaster.Broadcasting.ProcessUnstartedEthTxs: takes the address as the key; the advisory lock is the assumption that no second broadcaster of that key runs.
- EthConfirmer.Confirmer.HandleKeys: runs the forked workers of the keys one after the other; that they may run side by side, and what then holds at the join, is stated about logs in ConfirmerParallel.
- ConfirmerChecking.Checking.FetchAll: the same for the workers that fetch receipts.
- Creating keys: all addresses are there from the start, a key that is created later is one not used yet.
- EthConfirmer.Confirmer.ProcessHead: keys are an argument, as SendKeys returned them.
- RunQueue: Stop's promise that no worker is left cannot hold for a Run already past its check (`run_queue.go:93-101`) and is not stated.
- HeadRing: a channel without buffer is only modelled as far as showing that it can get stuck; a waiting receiver could take the head directly.
- HeadTracker.Tracker.HandleNewHead: loading and backfilling the chain is one step that may fail; the head handed on stands for the head with its chain.
- EventTopics.ParseTopics: the reflection that finds a struct field is a flag, and a value of every kind is stored as such.
- Payload.PlainPayload: the conversion of JSON values before encoding, and getTxDataUsingABIEncoding, are not part of this model.
- MaxBytes.ReadAll: the retries of the HTTP client around it.
- GasUpdater.Updater.PercentileGasPrice: sort.Slice is an insertion sort; which equal price comes first cannot be seen.
- run_executor, run_manager, HTTP controllers, the command line, key stores, JSON normalisation and decimal adapters: easy members or library behaviour.
