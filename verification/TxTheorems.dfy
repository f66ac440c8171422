/** What the invariant means for the tables: the promises of the transaction manager, over every
    log that starts from fresh tables. */
module TxTheorems {
  import opened Options
  import opened TxTables
  import opened TxTransactions
  import opened TxInvariant

  ghost predicate Reachable(w: World) {
    exists addresses, log :: Run(Fresh(addresses), log) == Some(w)
  }

  lemma ReachableInv(w: World)
    requires Reachable(w)
    ensures Inv(w)
  {
    var addresses, log :| Run(Fresh(addresses), log) == Some(w);
    FreshInv(addresses);
    RunsKeepInv(Fresh(addresses), log);
  }

  /** Nonces: two transactions of one address that are in_progress or handed over hold distinct
      nonces; the in_progress one holds next_nonce and the others lie between the first loaded
      nonce and next_nonce. */
  lemma NoncesAreDistinct(w: World, t: nat, u: nat)
    requires Reachable(w) && t in w.db.txes && u in w.db.txes && w.db.txes[t].from == w.db.txes[u].from && t != u
    requires HandedOver(w.db.txes[t].state) || w.db.txes[t].state == InProgress
    requires HandedOver(w.db.txes[u].state) || w.db.txes[u].state == InProgress
    ensures var row, a := w.db.txes[t], w.db.txes[t].from;
            && row.nonce.Some? && w.db.txes[u].nonce != row.nonce
            && a in w.ledgers && a in w.db.nextNonce && w.db.nextNonce[a].Some?
            && (row.state == InProgress ==> row.nonce == w.db.nextNonce[a])
            && (row.state != InProgress ==> w.ledgers[a].first <= row.nonce.value < w.db.nextNonce[a].value)
  {
    ReachableInv(w);
    NonceInRange(w, t);
    NonceInRange(w, u);
    OneHoldsNextNonce(w, t, u);
  }

  lemma OneHoldsNextNonce(w: World, t: nat, u: nat)
    requires Inv(w) && t in w.db.txes && u in w.db.txes && w.db.txes[t].from == w.db.txes[u].from && t != u
    ensures !(w.db.txes[t].state == InProgress && w.db.txes[u].state == InProgress)
  {
    assert In(w.db, t, InProgress) && In(w.db, u, InProgress) ==> t == u;
  }

  /** Where a live transaction's nonce lies, and which ledger entry goes with it. */
  lemma NonceInRange(w: World, t: nat)
    requires Inv(w) && t in w.db.txes && (HandedOver(w.db.txes[t].state) || w.db.txes[t].state == InProgress)
    ensures var row, a := w.db.txes[t], w.db.txes[t].from;
            && row.nonce.Some? && a in w.ledgers && a in w.db.nextNonce && w.db.nextNonce[a].Some?
            && (row.state == InProgress ==> row.nonce == w.db.nextNonce[a])
            && (row.state != InProgress ==>
                  w.ledgers[a].first <= row.nonce.value < w.db.nextNonce[a].value && Spent(w.ledgers, a, row.nonce.value, t))
  {
    assert TxOk(w, t);
  }

  /** Every nonce from the first loaded one up to next_nonce was given to exactly one transaction. */
  lemma NoNonceIsSkipped(w: World, a: Address, n: int)
    requires Reachable(w) && a in w.ledgers && a in w.db.nextNonce && w.db.nextNonce[a].Some?
    requires w.ledgers[a].first <= n < w.db.nextNonce[a].value
    ensures exists t :: Spent(w.ledgers, a, n, t) && (forall u :: Spent(w.ledgers, a, n, u) ==> u == t)
  {
    ReachableInv(w);
    assert Spent(w.ledgers, a, n, w.ledgers[a].ids[n - w.ledgers[a].first]);
  }

  /** How often the log moved a transaction of address a to unconfirmed with nonce n. */
  function TimesHandedOver(log: seq<Transaction>, a: Address, n: int): nat
    decreases |log|
  {
    if log == [] then 0 else
      var txn := log[|log| - 1];
      TimesHandedOver(log[..|log| - 1], a, n)
      + if txn.SaveUnconfirmed? && txn.etx.from == a && txn.etx.nonce == Some(n) then 1 else 0
  }

  predicate InLedger(w: World, a: Address, n: int) {
    a in w.ledgers && 0 <= n - w.ledgers[a].first < |w.ledgers[a].ids|
  }

  /** Each nonce from the first loaded one up to next_nonce was handed over once, any other never. */
  lemma {:induction false} EachNonceIsHandedOverOnce(addresses: set<Address>, log: seq<Transaction>, a: Address, n: int)
    requires Run(Fresh(addresses), log).Some?
    ensures TimesHandedOver(log, a, n) == if InLedger(Run(Fresh(addresses), log).value, a, n) then 1 else 0
    decreases |log|
  {
    if log != [] {
      var before := log[..|log| - 1];
      EachNonceIsHandedOverOnce(addresses, before, a, n);
      FreshInv(addresses);
      RunsKeepInv(Fresh(addresses), before);
      LastHandsOver(Run(Fresh(addresses), before).value, log[|log| - 1], a, n);
    }
  }

  lemma LastHandsOver(w: World, txn: Transaction, a: Address, n: int)
    requires Inv(w) && Enabled(w, txn)
    ensures var last := txn.SaveUnconfirmed? && txn.etx.from == a && txn.etx.nonce == Some(n);
            && (InLedger(Step(w, txn), a, n) <==> InLedger(w, a, n) || last)
            && !(InLedger(w, a, n) && last)
  {
    StepMoves(w, txn);
    LedgerGrows(w, txn, Step(w, txn), a, n);
  }

  lemma LedgerGrows(w: World, txn: Transaction, w': World, a: Address, n: int)
    requires LedgersOk(w) && Moves(w, txn, w')
    ensures var last := txn.SaveUnconfirmed? && txn.etx.from == a && txn.etx.nonce == Some(n);
            && (InLedger(w', a, n) <==> InLedger(w, a, n) || last)
            && !(InLedger(w, a, n) && last)
  {
  }

  /** A fatal send error takes the transaction out without spending its nonce. */
  lemma FatalErrorLeavesNoGap(w: World, etx: EthTx)
    requires Reachable(w) && Enabled(w, SaveFatallyErrored(etx))
    ensures var w' := Step(w, SaveFatallyErrored(etx));
            && w'.db.nextNonce == w.db.nextNonce && w'.ledgers == w.ledgers
            && w'.db.txes[etx.id].nonce == None && etx.from in w.db.nextNonce && etx.nonce == w.db.nextNonce[etx.from]
            && (forall u :: In(w'.db, u, InProgress) ==> w'.db.txes[u].from != etx.from)
  {
    ReachableInv(w);
    var txn, db' := SaveFatallyErrored(etx), Step(w, SaveFatallyErrored(etx)).db;
    assert etx.from in w.db.nextNonce && etx.nonce == w.db.nextNonce[etx.from] by {
      assert TxOk(w, etx.id);
    }
    NextNonceMoves(w.db, txn, db');
    NothingInProgress(w.db, etx, db');
  }

  lemma NothingInProgress(db: Db, etx: EthTx, db': Db)
    requires OneInProgress(db) && Applies(db, SaveFatallyErrored(etx), db')
    ensures db'.txes[etx.id].nonce == None && forall u :: In(db', u, InProgress) ==> db'.txes[u].from != etx.from
  {
    assert In(db, etx.id, InProgress);
    assert forall u :: In(db', u, InProgress) ==> u != etx.id && In(db, u, InProgress) && db'.txes[u] == db.txes[u];
  }

  /** The code's "system constraint": of all attempts of a transaction, one that is not in state
      'broadcast' is the only such one and strictly the highest priced. */
  lemma UnsentAttemptIsDearest(w: World, x: nat, y: nat)
    requires Reachable(w) && x in w.db.attempts && y in w.db.attempts && x != y
    requires w.db.attempts[x].txId == w.db.attempts[y].txId
    ensures w.db.attempts[x].price != w.db.attempts[y].price
    ensures w.db.attempts[x].state != Broadcast ==>
              w.db.attempts[y].state == Broadcast && w.db.attempts[y].price < w.db.attempts[x].price
  {
    ReachableInv(w);
    var t := w.db.attempts[x].txId;
    assert TxOk(w, t) && Of(w.db, x, t) && Of(w.db, y, t);
  }

  /** The unique indexes of the schema hold without being enforced: on (nonce, from_address), on the
      in_progress row of an address, on the in_progress attempt and on the gas prices of a
      transaction. */
  lemma UniqueIndexesHold(w: World)
    requires Reachable(w)
    ensures forall t, u :: t in w.db.txes && u in w.db.txes && t != u && w.db.txes[t].from == w.db.txes[u].from
              ==> (w.db.txes[t].nonce.Some? ==> w.db.txes[t].nonce != w.db.txes[u].nonce)
                  && !(w.db.txes[t].state == InProgress && w.db.txes[u].state == InProgress)
    ensures forall x, y :: x in w.db.attempts && y in w.db.attempts && x != y && w.db.attempts[x].txId == w.db.attempts[y].txId
              ==> w.db.attempts[x].price != w.db.attempts[y].price
                  && !(w.db.attempts[x].state == Sending && w.db.attempts[y].state == Sending)
  {
    forall t, u | t in w.db.txes && u in w.db.txes && t != u && w.db.txes[t].from == w.db.txes[u].from
      ensures w.db.txes[t].nonce.Some? ==> w.db.txes[t].nonce != w.db.txes[u].nonce
      ensures !(w.db.txes[t].state == InProgress && w.db.txes[u].state == InProgress)
    {
      NoncesOnlyWhere(w, t);
      NoncesOnlyWhere(w, u);
      if w.db.txes[t].nonce.Some? && w.db.txes[u].nonce.Some? {
        NoncesAreDistinct(w, t, u);
        NoncesAreDistinct(w, u, t);
      }
    }
    forall x, y | x in w.db.attempts && y in w.db.attempts && x != y && w.db.attempts[x].txId == w.db.attempts[y].txId
      ensures w.db.attempts[x].price != w.db.attempts[y].price
      ensures !(w.db.attempts[x].state == Sending && w.db.attempts[y].state == Sending)
    {
      UnsentAttemptIsDearest(w, x, y);
    }
  }

  lemma NoncesOnlyWhere(w: World, t: nat)
    requires Reachable(w) && t in w.db.txes
    ensures w.db.txes[t].nonce.Some? <==> w.db.txes[t].state == InProgress || HandedOver(w.db.txes[t].state)
  {
    ReachableInv(w);
    assert TxOk(w, t);
  }

  /** At most one receipt for each eth_tx, and only when it is confirmed; so saving a receipt never
      meets an existing one. */
  lemma OneReceiptAndConfirmed(w: World, r: Receipt, s: Receipt)
    requires Reachable(w) && r in w.db.receipts && s in w.db.receipts
    ensures r.attempt in w.db.attempts && s.attempt in w.db.attempts
    ensures In(w.db, w.db.attempts[r.attempt].txId, Confirmed)
    ensures w.db.attempts[r.attempt].txId == w.db.attempts[s.attempt].txId ==> r == s
    ensures forall receipt, t :: Disciplined(w.db, SaveReceipt(receipt, t)) ==> w.db.attempts[r.attempt].txId != t
  {
    ReachableInv(w);
    OnlyReceipt(w, r, s);
    ConfirmedGetsNone(w.db, w.db.attempts[r.attempt].txId);
  }

  lemma OnlyReceipt(w: World, r: Receipt, s: Receipt)
    requires Inv(w) && r in w.db.receipts && s in w.db.receipts
    ensures r.attempt in w.db.attempts && s.attempt in w.db.attempts
    ensures In(w.db, w.db.attempts[r.attempt].txId, Confirmed)
    ensures w.db.attempts[r.attempt].txId == w.db.attempts[s.attempt].txId ==> r == s
  {
    var t := w.db.attempts[r.attempt].txId;
    assert TxOk(w, t) && Of(w.db, r.attempt, t);
  }

  lemma ConfirmedGetsNone(db: Db, t: nat)
    requires In(db, t, Confirmed)
    ensures forall receipt, u :: Disciplined(db, SaveReceipt(receipt, u)) ==> t != u
  {
  }

  /** Which transactions markConfirmedMissingReceipt marks: those with a nonce below that of some
      confirmed transaction, of any account. */
  lemma MarkedIff(w: World, t: nat)
    requires Reachable(w) && In(w.db, t, Unconfirmed)
    ensures In(Execute(w.db, MarkConfirmedMissing).db, t, ConfirmedMissingReceipt) <==>
            exists u :: In(w.db, u, Confirmed) && NonceKey(w.db)(t) < NonceKey(w.db)(u)
  {
    ReachableInv(w);
    forall u | In(w.db, u, Confirmed) || u == t
      ensures u in w.db.txes && w.db.txes[u].nonce.Some?
    {
      assert TxOk(w, u);
    }
    MarkedByMaximum(w.db, t);
  }

  lemma MarkedByMaximum(db: Db, t: nat)
    requires In(db, t, Unconfirmed) && forall u :: In(db, u, Confirmed) || u == t ==> u in db.txes && db.txes[u].nonce.Some?
    ensures In(Execute(db, MarkConfirmedMissing).db, t, ConfirmedMissingReceipt) <==>
            exists u :: In(db, u, Confirmed) && NonceKey(db)(t) < NonceKey(db)(u)
  {
    MaxConfirmedIsConfirmed(db);
    var highest := MaxConfirmedNonce(db);
    assert In(Execute(db, MarkConfirmedMissing).db, t, ConfirmedMissingReceipt) <==> highest.Some? && db.txes[t].nonce.value < highest.value;
  }

  /** With a single sending key, a transaction marked as missing its receipt has been overtaken in
      its own account. TxExamples shows a run with two keys where it has not. */
  lemma OvertakenInOwnAccount(w: World, t: nat)
    requires Reachable(w) && In(w.db, t, ConfirmedMissingReceipt)
    requires forall u :: u in w.db.txes ==> w.db.txes[u].from == w.db.txes[t].from
    ensures exists u, m :: u in w.confirmedEver && Spent(w.ledgers, w.db.txes[t].from, m, u) && NonceKey(w.db)(t) < m
  {
    ReachableInv(w);
    assert TxOk(w, t);
    var a, m, u :| u in w.confirmedEver && Spent(w.ledgers, a, m, u) && w.db.txes[t].nonce.value < m;
    assert u in w.db.txes && w.db.txes[u].from == a;
  }

  /** Exactly when a transaction issued by a disciplined process is rolled back: no guard on states
      or ids ever fires, and the CHECK constraints only in the cases below. */
  ghost predicate RollsBackOnlyIf(db: Db, txn: Transaction, outcome: Outcome)
    requires Disciplined(db, txn)
  {
    match txn
    case InsertTx(from, _, _) => outcome.Committed? <==> from in db.nextNonce
    case SaveNonce(from, _) =>
      if from in db.nextNonce && db.nextNonce[from].None? then outcome.Committed? else outcome == RolledBack(LockFailed)
    case SaveUnconfirmed(etx, _) =>
      if etx.broadcastAt.value <= EARLIEST_BROADCAST then outcome == RolledBack(CheckViolation) else outcome.Committed?
    case SaveFatallyErrored(etx) =>
      if etx.broadcastAt.Some? || etx.error == Some("") then outcome == RolledBack(CheckViolation) else outcome.Committed?
    case SetBroadcastBefore(n) =>
      if n <= 0 && UnstampedIds(db) != {} then outcome == RolledBack(CheckViolation) else outcome.Committed?
    case MarkForRebroadcast(loaded) =>
      if loaded.attempts[0].state == Broadcast then outcome.Committed? else outcome == RolledBack(TopNotBroadcast)
    case _ => outcome.Committed?
  }

  /** saveUnconfirmed goes through for an in_progress copy only while its nonce is next_nonce. That is
      what saves the day when loadAndSaveNonce's UPDATE fails: it then returns nonce 0 and no error
      although no next_nonce was stored, and a transaction started with it can never be handed over. */
  lemma OnlyNextNonceIsHandedOver(db: Db, etx: EthTx, attempt: Attempt)
    requires Execute(db, SaveUnconfirmed(etx, attempt)).Committed?
    ensures etx.from in db.nextNonce && etx.nonce.Some? && db.nextNonce[etx.from] == etx.nonce
    ensures Execute(db, SaveUnconfirmed(etx, attempt)).db.nextNonce == db.nextNonce[etx.from := Some(etx.nonce.value + 1)]
  {
  }

  lemma BroadcasterNeverBlocked(w: World, txn: Transaction)
    requires Inv(w) && Disciplined(w.db, txn)
    requires txn.SaveInProgressTx? || txn.SaveUnconfirmed? || txn.SaveFatallyErrored?
    ensures RollsBackOnlyIf(w.db, txn, Execute(w.db, txn))
  {
    assert TxOk(w, txn.etx.id);
    match txn
    case SaveInProgressTx(etx, attempt) => StartingNeverBlocked(w.db, etx, attempt);
    case SaveUnconfirmed(etx, attempt) => HandingOverNeverBlocked(w.db, etx, attempt);
    case SaveFatallyErrored(etx) => GivingUpNeverBlocked(w.db, etx);
  }

  lemma StartingNeverBlocked(db: Db, etx: EthTx, attempt: Attempt)
    requires Disciplined(db, SaveInProgressTx(etx, attempt)) && StageOk(db, etx.id)
    ensures Execute(db, SaveInProgressTx(etx, attempt)).Committed?
  {
  }

  lemma HandingOverNeverBlocked(db: Db, etx: EthTx, attempt: Attempt)
    requires Disciplined(db, SaveUnconfirmed(etx, attempt)) && StageOk(db, etx.id)
    requires etx.from in db.nextNonce && db.nextNonce[etx.from] == etx.nonce
    ensures RollsBackOnlyIf(db, SaveUnconfirmed(etx, attempt), Execute(db, SaveUnconfirmed(etx, attempt)))
  {
    assert Of(db, attempt.id, etx.id);
  }

  lemma GivingUpNeverBlocked(db: Db, etx: EthTx)
    requires Disciplined(db, SaveFatallyErrored(etx)) && StageOk(db, etx.id)
    ensures RollsBackOnlyIf(db, SaveFatallyErrored(etx), Execute(db, SaveFatallyErrored(etx)))
  {
  }

  lemma AttemptsNeverBlocked(w: World, txn: Transaction)
    requires Inv(w) && Disciplined(w.db, txn)
    requires txn.SaveReplacement? || txn.SaveInProgressAttempt? || txn.SaveSentAttempt? || txn.SaveInsufficientEth? || txn.DeleteAttempt?
    ensures Execute(w.db, txn).Committed?
  {
    if txn.SaveSentAttempt? || txn.SaveInsufficientEth? {
      assert TxOk(w, txn.attempt.txId) && Of(w.db, txn.attempt.id, txn.attempt.txId);
    }
  }

  lemma GuardsNeverFire(w: World, txn: Transaction)
    requires Inv(w) && Disciplined(w.db, txn)
    ensures RollsBackOnlyIf(w.db, txn, Execute(w.db, txn))
  {
    match txn
    case SaveInProgressTx(_, _) => BroadcasterNeverBlocked(w, txn);
    case SaveUnconfirmed(_, _) => BroadcasterNeverBlocked(w, txn);
    case SaveFatallyErrored(_) => BroadcasterNeverBlocked(w, txn);
    case SaveReplacement(_, _) => AttemptsNeverBlocked(w, txn);
    case SaveInProgressAttempt(_) => AttemptsNeverBlocked(w, txn);
    case SaveSentAttempt(_) => AttemptsNeverBlocked(w, txn);
    case SaveInsufficientEth(_) => AttemptsNeverBlocked(w, txn);
    case DeleteAttempt(_) => AttemptsNeverBlocked(w, txn);
    case _ =>
  }

  // ---- what a commit changes, column by column ----

  /** The columns that a transaction of one eth_tx is meant to change, on the rows as they are in the
      tables; all else is as it was. */
  ghost predicate ColumnsChanged(db: Db, txn: Transaction, db': Db)
    requires Disciplined(db, txn)
  {
    match txn
    case SaveInProgressTx(etx, attempt) =>
      var row := db.txes[etx.id];
      && db.attemptSeq !in db.attempts
      && db' == db.(txes := db.txes[row.id := row.(state := InProgress, nonce := db.nextNonce[row.from])],
                    attempts := db.attempts[db.attemptSeq := Attempt(db.attemptSeq, row.id, attempt.price, None, Sending)],
                    attemptSeq := db.attemptSeq + 1)
    case SaveUnconfirmed(etx, attempt) =>
      var row := db.txes[etx.id];
      && row.nonce.Some?
      && db' == db.(txes := db.txes[row.id := row.(state := Unconfirmed, broadcastAt := etx.broadcastAt)],
                    attempts := db.attempts[attempt.id := db.attempts[attempt.id].(state := Broadcast)],
                    nextNonce := db.nextNonce[row.from := Some(row.nonce.value + 1)])
    case SaveFatallyErrored(etx) =>
      var row := db.txes[etx.id];
      db' == db.(txes := db.txes[row.id := row.(state := FatalError, error := etx.error, nonce := None)],
                 attempts := map x | x in db.attempts && db.attempts[x].txId != row.id :: db.attempts[x])
    case SaveReplacement(previous, replacement) =>
      && db.attemptSeq !in db.attempts
      && db'.attempts == (map x | x in db.attempts && x != previous.id :: db.attempts[x])
                         [db.attemptSeq := Attempt(db.attemptSeq, previous.txId, replacement.price, None, Sending)]
      && db' == db.(attempts := db'.attempts, receipts := db'.receipts, attemptSeq := db.attemptSeq + 1)
      && (forall r :: r in db'.receipts <==> r in db.receipts && r.attempt != previous.id)
    case SaveInProgressAttempt(attempt) =>
      if attempt.id == 0 then
        && db.attemptSeq !in db.attempts
        && db' == db.(attempts := db.attempts[db.attemptSeq := Attempt(db.attemptSeq, attempt.txId, attempt.price, None, Sending)],
                      attemptSeq := db.attemptSeq + 1)
      else db' == db.(attempts := db.attempts[attempt.id := db.attempts[attempt.id].(stamp := None, state := Sending)])
    case SaveSentAttempt(attempt) => db' == db.(attempts := db.attempts[attempt.id := db.attempts[attempt.id].(state := Broadcast)])
    case SaveInsufficientEth(attempt) => db' == db.(attempts := db.attempts[attempt.id := db.attempts[attempt.id].(state := InsufficientEth)])
    case DeleteAttempt(attempt) =>
      && db'.attempts == (map x | x in db.attempts && x != attempt.id :: db.attempts[x])
      && db' == db.(attempts := db'.attempts, receipts := db'.receipts)
      && (forall r :: r in db'.receipts <==> r in db.receipts && r.attempt != attempt.id)
    case _ => true
  }

  /** Although whole copies are saved, and some were read long before, no other column or row is
      overwritten with what it was then. */
  lemma CommitsByColumn(w: World, txn: Transaction)
    requires Inv(w) && Enabled(w, txn)
    ensures ColumnsChanged(w.db, txn, Step(w, txn).db)
  {
    match txn
    case SaveInProgressTx(_, _) => StartsByColumn(w.db, txn, Step(w, txn).db);
    case SaveUnconfirmed(_, _) => HandsOverByColumn(w, txn, Step(w, txn).db);
    case SaveFatallyErrored(etx) =>
      assert TxOk(w, etx.id);
      GivesUpByColumn(w.db, etx, Step(w, txn).db);
    case SaveReplacement(_, _) => ReplacesByColumn(w.db, txn, Step(w, txn).db);
    case SaveInProgressAttempt(_) => SavesByColumn(w.db, txn, Step(w, txn).db);
    case SaveSentAttempt(_) => SavesByColumn(w.db, txn, Step(w, txn).db);
    case SaveInsufficientEth(_) => SavesByColumn(w.db, txn, Step(w, txn).db);
    case DeleteAttempt(_) => ReplacesByColumn(w.db, txn, Step(w, txn).db);
    case _ =>
  }

  lemma StartsByColumn(db: Db, txn: Transaction, db': Db)
    requires Shape(db) && Applies(db, txn, db') && txn.SaveInProgressTx?
    ensures ColumnsChanged(db, txn, db')
  {
  }

  lemma HandsOverByColumn(w: World, txn: Transaction, db': Db)
    requires Inv(w) && Applies(w.db, txn, db') && txn.SaveUnconfirmed?
    ensures ColumnsChanged(w.db, txn, db')
  {
    assert TxOk(w, txn.etx.id);
  }

  lemma GivesUpByColumn(db: Db, etx: EthTx, db': Db)
    requires Applies(db, SaveFatallyErrored(etx), db') && TablesOk(db, etx.id) && db.txes[etx.id].id == etx.id
    ensures ColumnsChanged(db, SaveFatallyErrored(etx), db')
  {
    var t := etx.id;
    var dropped := DropAttempts(db, AttemptIds(db, t));
    assert dropped.receipts == db.receipts by {
      assert forall r :: r in db.receipts ==> !Of(db, r.attempt, t);
    }
    assert dropped.attempts == map x | x in db.attempts && db.attempts[x].txId != t :: db.attempts[x];
    RowGivenUp(db, etx, db');
  }

  lemma RowGivenUp(db: Db, etx: EthTx, db': Db)
    requires Applies(db, SaveFatallyErrored(etx), db') && TxCheck(db.txes[etx.id])
    ensures db' == DropAttempts(db, AttemptIds(db, etx.id)).(txes := db'.txes)
    ensures db'.txes == db.txes[etx.id := db.txes[etx.id].(state := FatalError, error := etx.error, nonce := None)]
  {
  }

  lemma ReplacesByColumn(db: Db, txn: Transaction, db': Db)
    requires Shape(db) && Applies(db, txn, db') && (txn.SaveReplacement? || txn.DeleteAttempt?)
    ensures ColumnsChanged(db, txn, db')
  {
  }

  lemma SavesByColumn(db: Db, txn: Transaction, db': Db)
    requires Shape(db) && Applies(db, txn, db') && (txn.SaveInProgressAttempt? || txn.SaveSentAttempt? || txn.SaveInsufficientEth?)
    ensures ColumnsChanged(db, txn, db')
  {
  }
}
