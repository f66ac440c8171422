/** Every database transaction of the broadcaster and the confirmer, as one atomic step.

    A transaction carries the in-memory copies its caller holds, exactly as the code does: the
    guards look at those copies, and saving a copy overwrites the whole row. */
module TxTransactions {
  import opened Options
  import opened TxTables

  datatype Failure =
    | CheckViolation      // a CHECK constraint of the schema
    | ForeignKey          // a row refers to a missing row
    | InvariantViolation  // one of the code's own guards on states and ids
    | TopNotBroadcast     // unbroadcastAttempt's guard
    | LockFailed          // loadAndSaveNonce's optimistic lock

  datatype Outcome = Committed(db: Db) | RolledBack(why: Failure)

  datatype Transaction =
    | InsertTx(from: Address, value: nat, createdAt: int)
    | SaveNonce(from: Address, nonce: int)
    | SaveInProgressTx(etx: EthTx, attempt: Attempt)
    | SaveUnconfirmed(etx: EthTx, attempt: Attempt)
    | SaveFatallyErrored(etx: EthTx)
    | SaveReplacement(previous: Attempt, replacement: Attempt)
    | SetBroadcastBefore(blockNum: int)
    | SaveReceipt(receipt: Receipt, txId: nat)
    | MarkConfirmedMissing
    | MarkOldErrored(cutoff: int)
    | SaveInProgressAttempt(attempt: Attempt)
    | SaveSentAttempt(attempt: Attempt)
    | SaveInsufficientEth(attempt: Attempt)
    | DeleteAttempt(attempt: Attempt)
    | MarkForRebroadcast(loaded: LoadedTx)

  function PutTx(db: Db, row: EthTx): Outcome {
    if !TxCheck(row) then RolledBack(CheckViolation)
    else Committed(db.(txes := db.txes[row.id := row]))
  }

  /** gorm's Save: an insert with the next id when the id is 0, an update otherwise. */
  function PutAttempt(db: Db, row: Attempt): Outcome {
    if !AttemptCheck(row) then RolledBack(CheckViolation)
    else if row.txId !in db.txes then RolledBack(ForeignKey)
    else if row.id == 0 then
      Committed(db.(attempts := db.attempts[db.attemptSeq := row.(id := db.attemptSeq)], attemptSeq := db.attemptSeq + 1))
    else Committed(db.(attempts := db.attempts[row.id := row]))
  }

  /** DELETE FROM eth_tx_attempts, with ON DELETE CASCADE on eth_receipts. */
  function DropAttempts(db: Db, ids: set<nat>): Db {
    db.(attempts := db.attempts - ids, receipts := set r | r in db.receipts && r.attempt !in ids)
  }

  function ReceiptsOf(db: Db, t: nat): set<Receipt> {
    set r | r in db.receipts && Of(db, r.attempt, t)
  }

  /** UPDATE keys SET next_nonce = next_nonce + 1 WHERE address = ? AND next_nonce = ?. */
  function IncrementNextNonce(db: Db, from: Address, current: Option<int>): Outcome {
    if from in db.nextNonce && current.Some? && db.nextNonce[from] == current
    then Committed(db.(nextNonce := db.nextNonce[from := Some(current.value + 1)]))
    else RolledBack(InvariantViolation)
  }

  /** max(broadcast_before_block_num) < cutoff, over the attempts joined to t. NULL is not true. */
  predicate LatestStampBefore(db: Db, t: nat, cutoff: int) {
    var stamps := Column(AttemptsOf(db, t));
    SqlMax(stamps).Some? && SqlMax(stamps).value < cutoff
  }

  function Column(attempts: seq<Attempt>): seq<Option<int>> {
    seq(|attempts|, i requires 0 <= i < |attempts| => attempts[i].stamp)
  }

  /** SELECT MAX(nonce) FROM eth_txes WHERE state = 'confirmed': no address in the condition. */
  function MaxConfirmedNonce(db: Db): Option<int> {
    var rows := set t | t in db.txes && db.txes[t].state == Confirmed;
    var ids := Ordering.SortBy(rows, t => 0);
    SqlMax(seq(|ids|, i requires 0 <= i < |ids| => assert ids[i] in rows; db.txes[ids[i]].nonce))
  }

  function UnstampedIds(db: Db): set<nat> {
    set x | x in db.attempts && db.attempts[x].stamp.None? && db.attempts[x].state == Broadcast
  }

  const COULD_NOT_GET_RECEIPT := "could not get receipt"

  function Execute(db: Db, txn: Transaction): Outcome {
    match txn
    case InsertTx(from, value, createdAt) =>
      if from !in db.nextNonce then RolledBack(ForeignKey) else
        var row := EthTx(db.txSeq, from, value, createdAt, None, Unstarted, None, None);
        Committed(db.(txes := db.txes[row.id := row], txSeq := db.txSeq + 1))
    case SaveNonce(from, nonce) =>
      if from in db.nextNonce && db.nextNonce[from].None?
      then Committed(db.(nextNonce := db.nextNonce[from := Some(nonce)]))
      else RolledBack(LockFailed)
    case SaveInProgressTx(etx, attempt) =>
      if etx.state != Unstarted || attempt.state != Sending then RolledBack(InvariantViolation)
      else
        var created := PutAttempt(db, attempt);
        if created.RolledBack? then created else PutTx(created.db, etx.(state := InProgress))
    case SaveUnconfirmed(etx, attempt) =>
      if etx.state != InProgress || attempt.state != Sending then RolledBack(InvariantViolation)
      else
        var incremented := IncrementNextNonce(db, etx.from, etx.nonce);
        if incremented.RolledBack? then incremented else
          var saved := PutTx(incremented.db, etx.(state := Unconfirmed));
          if saved.RolledBack? then saved else PutAttempt(saved.db, attempt.(state := Broadcast))
    case SaveFatallyErrored(etx) =>
      if etx.state != InProgress || etx.error.None? then RolledBack(InvariantViolation)
      else PutTx(DropAttempts(db, AttemptIds(db, etx.id)), etx.(nonce := None, state := FatalError))
    case SaveReplacement(previous, replacement) =>
      if previous.state != Sending || replacement.state != Sending || previous.id == 0 then RolledBack(InvariantViolation)
      else PutAttempt(DropAttempts(db, {previous.id}), replacement)
    case SetBroadcastBefore(blockNum) =>
      var unstamped := UnstampedIds(db);
      if unstamped != {} && blockNum <= 0 then RolledBack(CheckViolation)
      else Committed(db.(attempts := map x | x in db.attempts ::
             if x in unstamped then db.attempts[x].(stamp := Some(blockNum)) else db.attempts[x]))
    case SaveReceipt(receipt, txId) =>
      if receipt.attempt !in db.attempts then RolledBack(ForeignKey) else
        // ON CONFLICT (tx_hash, block_hash) DO NOTHING
        var conflict := exists r :: r in db.receipts && r.attempt == receipt.attempt && r.blockHash == receipt.blockHash;
        Committed(db.(receipts := if conflict then db.receipts else db.receipts + {receipt},
                      txes := if txId in db.txes then db.txes[txId := db.txes[txId].(state := Confirmed)] else db.txes))
    case MarkConfirmedMissing =>
      var highest := MaxConfirmedNonce(db);
      Committed(db.(txes := map t | t in db.txes ::
        if db.txes[t].state == Unconfirmed && db.txes[t].nonce.Some? && highest.Some? && db.txes[t].nonce.value < highest.value
        then db.txes[t].(state := ConfirmedMissingReceipt) else db.txes[t]))
    case MarkOldErrored(cutoff) =>
      Committed(db.(txes := map t | t in db.txes ::
        if db.txes[t].state == ConfirmedMissingReceipt && LatestStampBefore(db, t, cutoff)
        then db.txes[t].(state := FatalError, nonce := None, error := Some(COULD_NOT_GET_RECEIPT), broadcastAt := None)
        else db.txes[t]))
    case SaveInProgressAttempt(attempt) =>
      if attempt.state != Sending then RolledBack(InvariantViolation) else PutAttempt(db, attempt)
    case SaveSentAttempt(attempt) =>
      if attempt.state != Sending then RolledBack(InvariantViolation)
      else PutAttempt(db, attempt.(state := Broadcast))
    case SaveInsufficientEth(attempt) =>
      if attempt.state == Broadcast then RolledBack(InvariantViolation)
      else PutAttempt(db, attempt.(state := InsufficientEth))
    case DeleteAttempt(attempt) =>
      if attempt.state != Sending || attempt.id == 0 then RolledBack(InvariantViolation)
      else Committed(DropAttempts(db, {attempt.id}))
    case MarkForRebroadcast(loaded) =>
      if loaded.attempts == [] || loaded.row.state != Confirmed then RolledBack(InvariantViolation)
      else if loaded.attempts[0].state != Broadcast then RolledBack(TopNotBroadcast) else
        var t, top := loaded.row.id, loaded.attempts[0].id;
        Committed(db.(
          receipts := db.receipts - ReceiptsOf(db, t),
          txes := if t in db.txes then db.txes[t := db.txes[t].(state := Unconfirmed)] else db.txes,
          attempts := if top in db.attempts then db.attempts[top := db.attempts[top].(stamp := None, state := Sending)] else db.attempts))
  }
}
