/** What every transaction keeps, in every interleaving of the broadcasters, the confirmer,
    whoever inserts transactions, and crashes at any point between two transactions. */
module TxInvariant {
  import opened Options
  import opened TxTables
  import opened TxTransactions

  /** The nonces an address has used: ids[i] is the transaction sent with nonce first + i. */
  datatype Ledger = Ledger(first: int, ids: seq<nat>)

  /** The tables, with two history variables: which transaction reached 'unconfirmed' with which
      nonce, and which transactions were ever 'confirmed'. */
  datatype World = World(db: Db, ledgers: map<Address, Ledger>, confirmedEver: set<nat>)

  function Fresh(addresses: set<Address>): World {
    World(Db(map[], map[], {}, map a | a in addresses :: None, 0, 1), map[], {})
  }

  // ---- what each process guarantees when it issues a transaction ----

  predicate NewAttempt(attempt: Attempt) {
    attempt.id == 0 && attempt.state == Sending && attempt.stamp.None?
  }

  ghost predicate IsRow(db: Db, attempt: Attempt) {
    attempt.id in db.attempts && db.attempts[attempt.id] == attempt
  }

  /** All attempts of t other than x are broadcast and cheaper than price. */
  ghost predicate Outbids(db: Db, t: nat, x: nat, price: int) {
    forall y :: Of(db, y, t) && y != x ==> db.attempts[y].state == Broadcast && db.attempts[y].price < price
  }

  ghost predicate Disciplined(db: Db, txn: Transaction) {
    match txn
    case SaveInProgressTx(etx, attempt) =>
      && In(db, etx.id, Unstarted) && etx == db.txes[etx.id].(nonce := etx.nonce)
      && etx.from in db.nextNonce && etx.nonce.Some? && db.nextNonce[etx.from] == etx.nonce
      && (forall u :: In(db, u, InProgress) ==> db.txes[u].from != etx.from)
      && NewAttempt(attempt) && attempt.txId == etx.id
    case SaveUnconfirmed(etx, attempt) =>
      && In(db, etx.id, InProgress) && etx == db.txes[etx.id].(broadcastAt := etx.broadcastAt) && etx.broadcastAt.Some?
      && IsRow(db, attempt) && attempt.txId == etx.id
    case SaveFatallyErrored(etx) =>
      && In(db, etx.id, InProgress) && etx == db.txes[etx.id].(broadcastAt := etx.broadcastAt, error := etx.error)
      && etx.error.Some?
    case SaveReplacement(previous, replacement) =>
      && IsRow(db, previous) && previous.state == Sending && NewAttempt(replacement)
      && replacement.txId == previous.txId && replacement.price > previous.price
      && (In(db, previous.txId, InProgress) || Handed(db, previous.txId))
    case SaveReceipt(receipt, t) =>
      && Of(db, receipt.attempt, t) && (In(db, t, Unconfirmed) || In(db, t, ConfirmedMissingReceipt))
    case SaveInProgressAttempt(attempt) =>
      && attempt.state == Sending && attempt.stamp.None? && In(db, attempt.txId, Unconfirmed)
      && Outbids(db, attempt.txId, attempt.id, attempt.price)
      && (attempt.id != 0 ==> Of(db, attempt.id, attempt.txId) && db.attempts[attempt.id].price == attempt.price)
    case SaveSentAttempt(attempt) => IsRow(db, attempt) && attempt.state == Sending && Handed(db, attempt.txId)
    case SaveInsufficientEth(attempt) => IsRow(db, attempt) && attempt.state == Sending && Handed(db, attempt.txId)
    case DeleteAttempt(attempt) => IsRow(db, attempt) && attempt.state == Sending && Handed(db, attempt.txId)
    case MarkForRebroadcast(loaded) => In(db, loaded.row.id, Confirmed) && loaded == Load(db, loaded.row.id) && loaded.attempts != []
    case _ => true
  }

  // ---- steps and runs ----

  ghost predicate Enabled(w: World, txn: Transaction) {
    Disciplined(w.db, txn) && Execute(w.db, txn).Committed?
  }

  /** saveUnconfirmed enters the transaction in its address's ledger. */
  function LedgersAfter(ledgers: map<Address, Ledger>, txn: Transaction): map<Address, Ledger> {
    match txn
    case SaveNonce(from, nonce) => ledgers[from := Ledger(nonce, [])]
    case SaveUnconfirmed(etx, _) =>
      if etx.from !in ledgers then ledgers else
        ledgers[etx.from := ledgers[etx.from].(ids := ledgers[etx.from].ids + [etx.id])]
    case _ => ledgers
  }

  ghost function Step(w: World, txn: Transaction): World
    requires Enabled(w, txn)
  {
    World(Execute(w.db, txn).db, LedgersAfter(w.ledgers, txn),
          if txn.SaveReceipt? then w.confirmedEver + {txn.txId} else w.confirmedEver)
  }

  /** Runs a log of transactions. A crash ends no transaction half-way, so every prefix of a log
      is a possible crash state, and a log with a crash in it is just a log. */
  ghost function Run(w: World, log: seq<Transaction>): Option<World>
    decreases |log|
  {
    if log == [] then Some(w) else
      var before := Run(w, log[..|log| - 1]);
      var txn := log[|log| - 1];
      if before.Some? && Enabled(before.value, txn) then Some(Step(before.value, txn)) else None
  }

  // ---- the invariant ----

  /** Ids and foreign keys. */
  ghost predicate Shape(db: Db) {
    && 0 < db.attemptSeq
    && (forall t :: t in db.txes ==> db.txes[t].id == t < db.txSeq && db.txes[t].from in db.nextNonce)
    && (forall x :: x in db.attempts ==> db.attempts[x].id == x && 0 < x < db.attemptSeq && db.attempts[x].txId in db.txes)
    && (forall r :: r in db.receipts ==> r.attempt in db.attempts)
  }

  /** An unstarted transaction has no attempt; an in_progress one has exactly one, itself in_progress. */
  ghost predicate StageOk(db: Db, t: nat)
    requires t in db.txes
  {
    && TxCheck(db.txes[t])
    && (forall x :: Of(db, x, t) ==> AttemptCheck(db.attempts[x]) && db.txes[t].state != Unstarted)
    && (db.txes[t].state == InProgress ==>
          && (exists x :: Of(db, x, t))
          && (forall x :: Of(db, x, t) ==> db.attempts[x].state == Sending)
          && (forall x, y :: Of(db, x, t) && Of(db, y, t) ==> x == y))
  }

  /** Gas prices within a transaction are distinct, and an attempt not in state 'broadcast' is
      strictly the highest priced, so there is at most one. */
  ghost predicate PricesOk(db: Db, t: nat) {
    forall x, y :: Of(db, x, t) && Of(db, y, t) && x != y ==>
      && db.attempts[x].price != db.attempts[y].price
      && (db.attempts[x].state != Broadcast ==> db.attempts[y].price < db.attempts[x].price)
  }

  /** A transaction has at most one receipt, and then it is confirmed. */
  ghost predicate ReceiptsOk(db: Db, t: nat)
    requires t in db.txes
  {
    && (forall r :: r in db.receipts && Of(db, r.attempt, t) ==> db.txes[t].state == Confirmed)
    && (forall r, s :: r in db.receipts && Of(db, r.attempt, t) && s in db.receipts && Of(db, s.attempt, t) ==> r == s)
  }

  predicate Spent(ledgers: map<Address, Ledger>, a: Address, nonce: int, t: nat) {
    a in ledgers && 0 <= nonce - ledgers[a].first < |ledgers[a].ids| && ledgers[a].ids[nonce - ledgers[a].first] == t
  }

  /** Some transaction that was confirmed at some time holds a nonce above n. */
  ghost predicate Overtaken(ledgers: map<Address, Ledger>, confirmedEver: set<nat>, n: int) {
    exists a, m, u :: u in confirmedEver && Spent(ledgers, a, m, u) && n < m
  }

  /** The in_progress transaction of an address holds next_nonce; a transaction handed over holds
      the nonce the ledger gives it; one confirmed without a receipt has been overtaken. */
  ghost predicate NonceOk(w: World, t: nat)
    requires t in w.db.txes
  {
    var row := w.db.txes[t];
    && (row.state == InProgress ==> row.from in w.db.nextNonce && row.nonce == w.db.nextNonce[row.from])
    && (HandedOver(row.state) ==> row.nonce.Some? && Spent(w.ledgers, row.from, row.nonce.value, t))
    && (row.state == Confirmed ==> t in w.confirmedEver)
    && (row.state == ConfirmedMissingReceipt ==> row.nonce.Some? && Overtaken(w.ledgers, w.confirmedEver, row.nonce.value))
  }

  ghost predicate TablesOk(db: Db, t: nat)
    requires t in db.txes
  {
    StageOk(db, t) && PricesOk(db, t) && ReceiptsOk(db, t)
  }

  ghost predicate TxOk(w: World, t: nat)
    requires t in w.db.txes
  {
    TablesOk(w.db, t) && NonceOk(w, t)
  }

  ghost predicate OneInProgress(db: Db) {
    forall t, u :: In(db, t, InProgress) && In(db, u, InProgress) && db.txes[t].from == db.txes[u].from ==> t == u
  }

  /** next_nonce follows the ledger without a gap, and each transaction in it was handed over once. */
  ghost predicate LedgersOk(w: World) {
    var db, ledgers := w.db, w.ledgers;
    && (forall a :: a in ledgers <==> a in db.nextNonce && db.nextNonce[a].Some?)
    && (forall a :: a in ledgers ==> db.nextNonce[a] == Some(ledgers[a].first + |ledgers[a].ids|))
    && (forall a, n, t :: Spent(ledgers, a, n, t) ==> t in db.txes && db.txes[t].from == a && Departed(db.txes[t].state))
    && (forall a, m, n, t :: Spent(ledgers, a, m, t) && Spent(ledgers, a, n, t) ==> m == n)
  }

  predicate Departed(state: TxState) {
    state != Unstarted && state != InProgress
  }

  ghost predicate Inv(w: World) {
    && Shape(w.db) && OneInProgress(w.db) && LedgersOk(w)
    && forall t :: t in w.db.txes ==> TxOk(w, t)
  }

  lemma FreshInv(addresses: set<Address>)
    ensures Inv(Fresh(addresses))
  {
  }

  // ---- a transaction leaves alone every eth_tx but its subject ----

  ghost predicate SameAttempts(db: Db, db': Db, t: nat) {
    forall x :: Of(db, x, t) || Of(db', x, t) ==> Of(db, x, t) && Of(db', x, t) && db.attempts[x] == db'.attempts[x]
  }

  ghost predicate Frozen(db: Db, db': Db, t: nat) {
    && t in db.txes && t in db'.txes && db.txes[t] == db'.txes[t]
    && SameAttempts(db, db', t)
    && forall r: Receipt :: Of(db, r.attempt, t) ==> (r in db.receipts <==> r in db'.receipts)
  }

  function Subjects(txn: Transaction): Option<set<nat>> {
    match txn
    case InsertTx(_, _, _) => Some({})
    case SaveNonce(_, _) => Some({})
    case SaveInProgressTx(etx, _) => Some({etx.id})
    case SaveUnconfirmed(etx, _) => Some({etx.id})
    case SaveFatallyErrored(etx) => Some({etx.id})
    case SaveReplacement(previous, _) => Some({previous.txId})
    case SaveReceipt(_, t) => Some({t})
    case SaveInProgressAttempt(attempt) => Some({attempt.txId})
    case SaveSentAttempt(attempt) => Some({attempt.txId})
    case SaveInsufficientEth(attempt) => Some({attempt.txId})
    case DeleteAttempt(attempt) => Some({attempt.txId})
    case MarkForRebroadcast(loaded) => Some({loaded.row.id})
    case _ => None
  }

  /** The first loaded attempt is the highest priced one. */
  lemma TopIsDearest(db: Db, t: nat)
    requires Shape(db) && AttemptsOf(db, t) != []
    ensures var top := AttemptsOf(db, t)[0];
            && Of(db, top.id, t) && db.attempts[top.id] == top
            && (forall y :: Of(db, y, t) ==> db.attempts[y].price <= top.price)
  {
    AttemptsOfIsComplete(db, t);
    var attempts := AttemptsOf(db, t);
    var x :| Of(db, x, t) && db.attempts[x] == attempts[0];
    forall y | Of(db, y, t)
      ensures db.attempts[y].price <= attempts[0].price
    {
      assert db.attempts[y] in attempts;
    }
  }

  ghost predicate Applies(db: Db, txn: Transaction, db': Db) {
    Shape(db) && Disciplined(db, txn) && Execute(db, txn) == Committed(db')
  }

  lemma OthersFrozenByBroadcaster(db: Db, txn: Transaction, db': Db, t: nat)
    requires Applies(db, txn, db') && t in db.txes
    requires txn.InsertTx? || txn.SaveNonce? || txn.SaveInProgressTx? || txn.SaveUnconfirmed? || txn.SaveFatallyErrored?
    requires t !in Subjects(txn).value
    ensures Frozen(db, db', t)
  {
  }

  lemma OthersFrozenByAttempt(db: Db, txn: Transaction, db': Db, t: nat)
    requires Applies(db, txn, db') && t in db.txes
    requires txn.SaveInProgressAttempt? || txn.SaveSentAttempt? || txn.SaveInsufficientEth?
    requires t != txn.attempt.txId
    ensures Frozen(db, db', t)
  {
  }

  lemma OthersFrozenByDropping(db: Db, txn: Transaction, db': Db, t: nat)
    requires Applies(db, txn, db') && t in db.txes && (txn.SaveReplacement? || txn.DeleteAttempt?) && t !in Subjects(txn).value
    ensures Frozen(db, db', t)
  {
  }

  lemma OthersFrozenByReceipt(db: Db, txn: Transaction, db': Db, t: nat)
    requires Applies(db, txn, db') && t in db.txes && txn.SaveReceipt? && t != txn.txId
    ensures Frozen(db, db', t)
  {
  }

  lemma OthersFrozenByRebroadcast(db: Db, txn: Transaction, db': Db, t: nat)
    requires Applies(db, txn, db') && t in db.txes && txn.MarkForRebroadcast? && t != txn.loaded.row.id
    ensures Frozen(db, db', t)
  {
    TopIsDearest(db, txn.loaded.row.id);
    var top := txn.loaded.attempts[0].id;
    assert db'.attempts == db.attempts[top := db'.attempts[top]] && db'.attempts[top].txId == txn.loaded.row.id;
  }

  lemma OthersFrozen(db: Db, txn: Transaction, db': Db, t: nat)
    requires Applies(db, txn, db')
    requires Subjects(txn).Some? && t in db.txes && t !in Subjects(txn).value
    ensures Frozen(db, db', t)
  {
    match txn
    case SaveReplacement(_, _) => OthersFrozenByDropping(db, txn, db', t);
    case SaveInProgressAttempt(_) => OthersFrozenByAttempt(db, txn, db', t);
    case SaveSentAttempt(_) => OthersFrozenByAttempt(db, txn, db', t);
    case SaveInsufficientEth(_) => OthersFrozenByAttempt(db, txn, db', t);
    case DeleteAttempt(_) => OthersFrozenByDropping(db, txn, db', t);
    case SaveReceipt(_, _) => OthersFrozenByReceipt(db, txn, db', t);
    case MarkForRebroadcast(_) => OthersFrozenByRebroadcast(db, txn, db', t);
    case _ => OthersFrozenByBroadcaster(db, txn, db', t);
  }

  ghost predicate AttemptIdsOk(db: Db) {
    && 0 < db.attemptSeq
    && forall x :: x in db.attempts ==> db.attempts[x].id == x && 0 < x < db.attemptSeq && db.attempts[x].txId in db.txes
  }

  lemma AttemptIdsKeptByAttempt(db: Db, txn: Transaction, db': Db)
    requires Applies(db, txn, db')
    requires txn.SaveInProgressAttempt? || txn.SaveSentAttempt? || txn.SaveInsufficientEth?
    ensures AttemptIdsOk(db')
  {
  }

  lemma AttemptIdsKeptByDropping(db: Db, txn: Transaction, db': Db)
    requires Applies(db, txn, db') && (txn.SaveReplacement? || txn.DeleteAttempt?)
    ensures AttemptIdsOk(db')
  {
  }

  lemma AttemptIdsKeptByTx(db: Db, txn: Transaction, db': Db)
    requires Applies(db, txn, db')
    requires txn.SaveInProgressTx? || txn.SaveUnconfirmed? || txn.SaveFatallyErrored?
    ensures AttemptIdsOk(db')
  {
  }

  lemma AttemptIdsKept(db: Db, txn: Transaction, db': Db)
    requires Applies(db, txn, db')
    requires forall t :: t in db.txes ==> t in db'.txes
    ensures AttemptIdsOk(db')
  {
    match txn
    case SaveInProgressTx(_, _) => AttemptIdsKeptByTx(db, txn, db');
    case SaveUnconfirmed(_, _) => AttemptIdsKeptByTx(db, txn, db');
    case SaveFatallyErrored(_) => AttemptIdsKeptByTx(db, txn, db');
    case SaveReplacement(_, _) => AttemptIdsKeptByDropping(db, txn, db');
    case SaveInProgressAttempt(_) => AttemptIdsKeptByAttempt(db, txn, db');
    case SaveSentAttempt(_) => AttemptIdsKeptByAttempt(db, txn, db');
    case SaveInsufficientEth(_) => AttemptIdsKeptByAttempt(db, txn, db');
    case DeleteAttempt(_) => AttemptIdsKeptByDropping(db, txn, db');
    case MarkForRebroadcast(_) => AttemptIdsKeptByRebroadcast(db, txn, db');
    case SetBroadcastBefore(_) => AttemptIdsKeptByStamp(db, txn, db');
    case _ =>
  }

  lemma AttemptIdsKeptByRebroadcast(db: Db, txn: Transaction, db': Db)
    requires Applies(db, txn, db') && txn.MarkForRebroadcast?
    ensures AttemptIdsOk(db')
  {
    TopIsDearest(db, txn.loaded.row.id);
  }

  lemma AttemptIdsKeptByStamp(db: Db, txn: Transaction, db': Db)
    requires Applies(db, txn, db') && txn.SetBroadcastBefore?
    ensures AttemptIdsOk(db')
  {
  }

  ghost predicate ReceiptKeysOk(db: Db) {
    forall r :: r in db.receipts ==> r.attempt in db.attempts
  }

  lemma ReceiptKeysKeptByDropping(db: Db, txn: Transaction, db': Db)
    requires Applies(db, txn, db') && (txn.SaveFatallyErrored? || txn.SaveReplacement? || txn.DeleteAttempt?)
    ensures ReceiptKeysOk(db')
  {
  }

  /** These add receipts, or take some away, and drop no attempt. */
  lemma ReceiptKeysKeptByReceipt(db: Db, txn: Transaction, db': Db)
    requires Applies(db, txn, db') && (txn.SaveReceipt? || txn.MarkForRebroadcast?)
    ensures ReceiptKeysOk(db')
  {
  }

  lemma ReceiptKeysKeptByPutting(db: Db, txn: Transaction, db': Db)
    requires Applies(db, txn, db')
    requires txn.SaveInProgressTx? || txn.SaveUnconfirmed? || txn.SaveInProgressAttempt? || txn.SaveSentAttempt? || txn.SaveInsufficientEth?
    ensures ReceiptKeysOk(db')
  {
  }

  lemma ReceiptKeysKeptByRows(db: Db, txn: Transaction, db': Db)
    requires Applies(db, txn, db')
    requires txn.InsertTx? || txn.SaveNonce? || txn.SetBroadcastBefore? || txn.MarkConfirmedMissing? || txn.MarkOldErrored?
    ensures ReceiptKeysOk(db')
  {
  }

  lemma ReceiptKeysKept(db: Db, txn: Transaction, db': Db)
    requires Applies(db, txn, db')
    ensures ReceiptKeysOk(db')
  {
    match txn
    case SaveFatallyErrored(_) => ReceiptKeysKeptByDropping(db, txn, db');
    case SaveReplacement(_, _) => ReceiptKeysKeptByDropping(db, txn, db');
    case DeleteAttempt(_) => ReceiptKeysKeptByDropping(db, txn, db');
    case SaveReceipt(_, _) => ReceiptKeysKeptByReceipt(db, txn, db');
    case MarkForRebroadcast(_) => ReceiptKeysKeptByReceipt(db, txn, db');
    case SaveInProgressTx(_, _) => ReceiptKeysKeptByPutting(db, txn, db');
    case SaveUnconfirmed(_, _) => ReceiptKeysKeptByPutting(db, txn, db');
    case SaveInProgressAttempt(_) => ReceiptKeysKeptByPutting(db, txn, db');
    case SaveSentAttempt(_) => ReceiptKeysKeptByPutting(db, txn, db');
    case SaveInsufficientEth(_) => ReceiptKeysKeptByPutting(db, txn, db');
    case _ => ReceiptKeysKeptByRows(db, txn, db');
  }

  /** The state machine of an eth_tx row: the only ways a transaction can change one. */
  predicate Transition(txn: Transaction, row: EthTx, row': EthTx) {
    row' == row ||
    match txn
    case SaveInProgressTx(etx, _) =>
      row.id == etx.id && row.state == Unstarted && row' == row.(state := InProgress, nonce := etx.nonce)
    case SaveUnconfirmed(etx, _) =>
      row.id == etx.id && row.state == InProgress && row' == row.(state := Unconfirmed, broadcastAt := etx.broadcastAt)
    case SaveFatallyErrored(etx) =>
      row.id == etx.id && row.state == InProgress && row' == row.(state := FatalError, nonce := None, error := etx.error, broadcastAt := None)
    case SaveReceipt(_, t) =>
      row.id == t && (row.state == Unconfirmed || row.state == ConfirmedMissingReceipt) && row' == row.(state := Confirmed)
    case MarkConfirmedMissing =>
      row.state == Unconfirmed && row' == row.(state := ConfirmedMissingReceipt)
    case MarkOldErrored(_) =>
      row.state == ConfirmedMissingReceipt
      && row' == row.(state := FatalError, nonce := None, error := Some(COULD_NOT_GET_RECEIPT), broadcastAt := None)
    case MarkForRebroadcast(loaded) =>
      row.id == loaded.row.id && row.state == Confirmed && row' == row.(state := Unconfirmed)
    case _ => false
  }

  lemma RowsUntouched(db: Db, txn: Transaction, db': Db)
    requires Applies(db, txn, db')
    requires txn.SaveNonce? || txn.SaveReplacement? || txn.SetBroadcastBefore? || txn.SaveInProgressAttempt?
             || txn.SaveSentAttempt? || txn.SaveInsufficientEth? || txn.DeleteAttempt?
    ensures db'.txes == db.txes
  {
  }

  lemma RowsFollowBroadcaster(db: Db, txn: Transaction, db': Db, t: nat)
    requires Applies(db, txn, db')
    requires txn.InsertTx? || txn.SaveInProgressTx? || txn.SaveUnconfirmed? || txn.SaveFatallyErrored?
    ensures t in db.txes ==> t in db'.txes && Transition(txn, db.txes[t], db'.txes[t])
    ensures t !in db.txes && t in db'.txes ==>
              txn.InsertTx? && db'.txes[t].state == Unstarted && TxCheck(db'.txes[t])
              && db'.txes[t].id == t < db'.txSeq && db'.txes[t].from in db.nextNonce
  {
  }

  lemma RowsFollowConfirmer(db: Db, txn: Transaction, db': Db, t: nat)
    requires Applies(db, txn, db')
    requires txn.SaveReceipt? || txn.MarkConfirmedMissing? || txn.MarkOldErrored? || txn.MarkForRebroadcast?
    ensures t in db.txes <==> t in db'.txes
    ensures t in db.txes ==> Transition(txn, db.txes[t], db'.txes[t])
  {
  }

  lemma RowsFollowStateMachine(db: Db, txn: Transaction, db': Db, t: nat)
    requires Applies(db, txn, db')
    ensures t in db.txes ==> t in db'.txes && Transition(txn, db.txes[t], db'.txes[t])
    ensures t !in db.txes && t in db'.txes ==>
              txn.InsertTx? && db'.txes[t].state == Unstarted && TxCheck(db'.txes[t])
              && db'.txes[t].id == t < db'.txSeq && db'.txes[t].from in db.nextNonce
  {
    if txn.InsertTx? || txn.SaveInProgressTx? || txn.SaveUnconfirmed? || txn.SaveFatallyErrored? {
      RowsFollowBroadcaster(db, txn, db', t);
    } else if txn.SaveReceipt? || txn.MarkConfirmedMissing? || txn.MarkOldErrored? || txn.MarkForRebroadcast? {
      RowsFollowConfirmer(db, txn, db', t);
    } else {
      RowsUntouched(db, txn, db');
    }
  }

  ghost predicate Grows(db: Db, db': Db) {
    db.txSeq <= db'.txSeq && db.attemptSeq <= db'.attemptSeq && db.nextNonce.Keys <= db'.nextNonce.Keys
  }

  lemma BroadcasterGrows(db: Db, txn: Transaction, db': Db)
    requires Applies(db, txn, db')
    requires txn.InsertTx? || txn.SaveNonce? || txn.SaveInProgressTx? || txn.SaveUnconfirmed? || txn.SaveFatallyErrored?
    ensures Grows(db, db')
  {
  }

  lemma SequencesGrow(db: Db, txn: Transaction, db': Db)
    requires Applies(db, txn, db')
    ensures Grows(db, db')
  {
    if txn.InsertTx? || txn.SaveNonce? || txn.SaveInProgressTx? || txn.SaveUnconfirmed? || txn.SaveFatallyErrored? {
      BroadcasterGrows(db, txn, db');
    }
  }

  lemma ShapeKept(db: Db, txn: Transaction, db': Db)
    requires Applies(db, txn, db')
    ensures Shape(db')
  {
    forall t: nat
      ensures t in db.txes ==> t in db'.txes
      ensures t in db'.txes ==> db'.txes[t].id == t < db'.txSeq && db'.txes[t].from in db'.nextNonce
    {
      RowsFollowStateMachine(db, txn, db', t);
      SequencesGrow(db, txn, db');
    }
    AttemptIdsKept(db, txn, db');
    ReceiptKeysKept(db, txn, db');
  }

  ghost predicate NextNonceFollows(db: Db, txn: Transaction, db': Db) {
    match txn
    case SaveNonce(a, n) =>
      a in db.nextNonce && db.nextNonce[a].None? && db'.nextNonce == db.nextNonce[a := Some(n)]
    case SaveUnconfirmed(etx, _) =>
      && etx.from in db.nextNonce && etx.nonce.Some? && db.nextNonce[etx.from] == etx.nonce
      && db'.nextNonce == db.nextNonce[etx.from := Some(etx.nonce.value + 1)]
    case _ => db'.nextNonce == db.nextNonce
  }

  /** What a step does to rows, nonces and history, attempts and receipts apart. */
  ghost predicate Moves(w: World, txn: Transaction, w': World) {
    && Disciplined(w.db, txn)
    && (forall t :: t in w.db.txes ==> t in w'.db.txes && Transition(txn, w.db.txes[t], w'.db.txes[t]))
    && (forall t :: t in w'.db.txes && t !in w.db.txes ==> w'.db.txes[t].state == Unstarted)
    && NextNonceFollows(w.db, txn, w'.db)
    && (txn.SaveUnconfirmed? ==> In(w'.db, txn.etx.id, Unconfirmed))
    && (txn.SaveReceipt? ==> In(w'.db, txn.txId, Confirmed))
    && w'.ledgers == LedgersAfter(w.ledgers, txn)
    && w'.confirmedEver == if txn.SaveReceipt? then w.confirmedEver + {txn.txId} else w.confirmedEver
  }

  lemma NextNonceMoves(db: Db, txn: Transaction, db': Db)
    requires Applies(db, txn, db')
    ensures NextNonceFollows(db, txn, db')
    ensures txn.SaveUnconfirmed? ==> In(db', txn.etx.id, Unconfirmed)
    ensures txn.SaveReceipt? ==> In(db', txn.txId, Confirmed)
  {
  }

  lemma StepMoves(w: World, txn: Transaction)
    requires Shape(w.db) && Enabled(w, txn)
    ensures Moves(w, txn, Step(w, txn))
  {
    var db' := Step(w, txn).db;
    NextNonceMoves(w.db, txn, db');
    forall t
      ensures t in w.db.txes ==> t in db'.txes && Transition(txn, w.db.txes[t], db'.txes[t])
      ensures t in db'.txes && t !in w.db.txes ==> db'.txes[t].state == Unstarted
    {
      RowsFollowStateMachine(w.db, txn, db', t);
    }
  }

  // ---- the tables of one transaction ----

  lemma FrozenStaysOk(db: Db, db': Db, t: nat)
    requires t in db.txes && TablesOk(db, t) && Frozen(db, db', t)
    ensures TablesOk(db', t)
  {
    if In(db, t, InProgress) {
      var x :| Of(db, x, t);
      assert Of(db', x, t);
    }
  }

  // ---- the subject of each transaction ----

  lemma SaveInProgressTxKeeps(db: Db, etx: EthTx, attempt: Attempt, db': Db)
    requires Applies(db, SaveInProgressTx(etx, attempt), db') && etx.id in db.txes && TablesOk(db, etx.id)
    ensures etx.id in db'.txes && TablesOk(db', etx.id)
  {
    assert Of(db', db.attemptSeq, etx.id);
  }

  lemma SaveUnconfirmedKeeps(db: Db, etx: EthTx, attempt: Attempt, db': Db)
    requires Applies(db, SaveUnconfirmed(etx, attempt), db') && etx.id in db.txes && TablesOk(db, etx.id)
    ensures etx.id in db'.txes && TablesOk(db', etx.id)
  {
    assert Of(db, attempt.id, etx.id);
    assert forall x :: Of(db', x, etx.id) ==> x == attempt.id;
  }

  lemma SaveFatallyErroredKeeps(db: Db, etx: EthTx, db': Db)
    requires Applies(db, SaveFatallyErrored(etx), db') && etx.id in db.txes && TablesOk(db, etx.id)
    ensures etx.id in db'.txes && TablesOk(db', etx.id)
  {
  }

  lemma SaveReplacementKeeps(db: Db, previous: Attempt, replacement: Attempt, db': Db)
    requires Applies(db, SaveReplacement(previous, replacement), db') && previous.txId in db.txes && TablesOk(db, previous.txId)
    ensures previous.txId in db'.txes && TablesOk(db', previous.txId)
  {
    ReplaceKeeps(db, previous, replacement.(id := db.attemptSeq), db');
  }

  lemma ReplaceKeeps(db: Db, previous: Attempt, added: Attempt, db': Db)
    requires previous.txId in db.txes && TablesOk(db, previous.txId) && IsRow(db, previous) && previous.state == Sending
    requires db.txes[previous.txId].state != Unstarted
    requires added.txId == previous.txId && added.state == Sending && added.price > previous.price && AttemptCheck(added)
    requires added.id !in db.attempts && db'.attempts == (db.attempts - {previous.id})[added.id := added]
    requires db'.txes == db.txes && forall r :: r in db'.receipts ==> r in db.receipts && r.attempt in db.attempts
    ensures TablesOk(db', previous.txId)
  {
    var t := previous.txId;
    assert Of(db, previous.id, t) && Of(db', added.id, t);
    assert forall x :: Of(db', x, t) ==> x == added.id || Of(db, x, t);
  }

  lemma SaveReceiptKeeps(db: Db, receipt: Receipt, t: nat, db': Db)
    requires Applies(db, SaveReceipt(receipt, t), db') && t in db.txes && TablesOk(db, t)
    ensures t in db'.txes && TablesOk(db', t)
  {
  }

  lemma SaveInProgressAttemptKeeps(db: Db, attempt: Attempt, db': Db)
    requires Applies(db, SaveInProgressAttempt(attempt), db') && attempt.txId in db.txes && TablesOk(db, attempt.txId)
    ensures attempt.txId in db'.txes && TablesOk(db', attempt.txId)
  {
    ResendKeeps(db, if attempt.id == 0 then attempt.(id := db.attemptSeq) else attempt, db');
  }

  lemma ResendKeeps(db: Db, sending: Attempt, db': Db)
    requires In(db, sending.txId, Unconfirmed) && TablesOk(db, sending.txId) && sending.state == Sending && AttemptCheck(sending)
    requires Outbids(db, sending.txId, sending.id, sending.price)
    requires db'.attempts == db.attempts[sending.id := sending] && db'.txes == db.txes && db'.receipts == db.receipts
    requires forall r :: r in db.receipts ==> r.attempt in db.attempts
    requires sending.id in db.attempts ==> db.attempts[sending.id].txId == sending.txId
    ensures TablesOk(db', sending.txId)
  {
    assert forall x :: Of(db', x, sending.txId) ==> x == sending.id || Of(db, x, sending.txId);
  }

  lemma SaveSentAttemptKeeps(db: Db, attempt: Attempt, db': Db)
    requires Applies(db, SaveSentAttempt(attempt), db') && attempt.txId in db.txes && TablesOk(db, attempt.txId)
    ensures attempt.txId in db'.txes && TablesOk(db', attempt.txId)
  {
    assert Of(db, attempt.id, attempt.txId);
  }

  lemma SaveInsufficientEthKeeps(db: Db, attempt: Attempt, db': Db)
    requires Applies(db, SaveInsufficientEth(attempt), db') && attempt.txId in db.txes && TablesOk(db, attempt.txId)
    ensures attempt.txId in db'.txes && TablesOk(db', attempt.txId)
  {
    assert Of(db, attempt.id, attempt.txId);
  }

  lemma DeleteAttemptKeeps(db: Db, attempt: Attempt, db': Db)
    requires Applies(db, DeleteAttempt(attempt), db') && attempt.txId in db.txes && TablesOk(db, attempt.txId)
    ensures attempt.txId in db'.txes && TablesOk(db', attempt.txId)
  {
    assert Of(db, attempt.id, attempt.txId);
  }

  lemma MarkForRebroadcastKeeps(db: Db, loaded: LoadedTx, db': Db)
    requires Applies(db, MarkForRebroadcast(loaded), db') && loaded.row.id in db.txes && TablesOk(db, loaded.row.id)
    ensures loaded.row.id in db'.txes && TablesOk(db', loaded.row.id)
  {
    var t, top := loaded.row.id, loaded.attempts[0];
    TopIsDearest(db, t);
    UnbroadcastKeeps(db, t, top, db');
  }

  lemma UnbroadcastKeeps(db: Db, t: nat, top: Attempt, db': Db)
    requires t in db.txes && TablesOk(db, t) && db.txes[t].state == Confirmed
    requires Of(db, top.id, t) && db.attempts[top.id] == top && top.state == Broadcast
    requires forall y :: Of(db, y, t) ==> db.attempts[y].price <= top.price
    requires db'.txes == db.txes[t := db.txes[t].(state := Unconfirmed)]
    requires db'.attempts == db.attempts[top.id := top.(stamp := None, state := Sending)]
    requires forall r :: r in db'.receipts ==> r in db.receipts && !Of(db, r.attempt, t)
    ensures TablesOk(db', t)
  {
    assert forall x :: Of(db', x, t) <==> Of(db, x, t);
  }

  lemma SetBroadcastBeforeKeeps(db: Db, n: int, db': Db, t: nat)
    requires Applies(db, SetBroadcastBefore(n), db') && t in db.txes && TablesOk(db, t)
    ensures t in db'.txes && TablesOk(db', t)
  {
    assert forall x :: Of(db', x, t) <==> Of(db, x, t);
  }

  lemma RowChangeKeeps(db: Db, db': Db, t: nat)
    requires t in db.txes && TablesOk(db, t) && db'.attempts == db.attempts && db'.receipts == db.receipts
    requires t in db'.txes && TxCheck(db'.txes[t])
    requires db'.txes[t] == db.txes[t]
             || (db.txes[t].state != Confirmed && Departed(db.txes[t].state) && Departed(db'.txes[t].state))
    ensures TablesOk(db', t)
  {
    assert forall x :: Of(db', x, t) <==> Of(db, x, t);
  }

  lemma BulkKeeps(db: Db, txn: Transaction, db': Db, t: nat)
    requires Applies(db, txn, db') && Subjects(txn).None? && t in db.txes && TablesOk(db, t)
    ensures t in db'.txes && TablesOk(db', t)
  {
    if txn.SetBroadcastBefore? {
      SetBroadcastBeforeKeeps(db, txn.blockNum, db', t);
    } else {
      RowChangeKeeps(db, db', t);
    }
  }

  lemma BroadcastersSubjectKeeps(db: Db, txn: Transaction, db': Db, t: nat)
    requires Applies(db, txn, db') && Subjects(txn).Some? && t in Subjects(txn).value && t in db.txes && TablesOk(db, t)
    requires txn.SaveInProgressTx? || txn.SaveUnconfirmed? || txn.SaveFatallyErrored?
    ensures t in db'.txes && TablesOk(db', t)
  {
    match txn
    case SaveInProgressTx(etx, attempt) => SaveInProgressTxKeeps(db, etx, attempt, db');
    case SaveUnconfirmed(etx, attempt) => SaveUnconfirmedKeeps(db, etx, attempt, db');
    case SaveFatallyErrored(etx) => SaveFatallyErroredKeeps(db, etx, db');
  }

  lemma ConfirmersSubjectKeeps(db: Db, txn: Transaction, db': Db, t: nat)
    requires Applies(db, txn, db') && Subjects(txn).Some? && t in Subjects(txn).value && t in db.txes && TablesOk(db, t)
    requires !txn.SaveInProgressTx? && !txn.SaveUnconfirmed? && !txn.SaveFatallyErrored?
    ensures t in db'.txes && TablesOk(db', t)
  {
    match txn
    case SaveReplacement(previous, replacement) => SaveReplacementKeeps(db, previous, replacement, db');
    case SaveReceipt(receipt, t) => SaveReceiptKeeps(db, receipt, t, db');
    case SaveInProgressAttempt(attempt) => SaveInProgressAttemptKeeps(db, attempt, db');
    case SaveSentAttempt(attempt) => SaveSentAttemptKeeps(db, attempt, db');
    case SaveInsufficientEth(attempt) => SaveInsufficientEthKeeps(db, attempt, db');
    case DeleteAttempt(attempt) => DeleteAttemptKeeps(db, attempt, db');
    case MarkForRebroadcast(loaded) => MarkForRebroadcastKeeps(db, loaded, db');
  }

  lemma TablesKept(db: Db, txn: Transaction, db': Db, t: nat)
    requires Applies(db, txn, db') && t in db.txes && TablesOk(db, t)
    ensures t in db'.txes && TablesOk(db', t)
  {
    if Subjects(txn).None? {
      BulkKeeps(db, txn, db', t);
    } else if t in Subjects(txn).value {
      if txn.SaveInProgressTx? || txn.SaveUnconfirmed? || txn.SaveFatallyErrored? {
        BroadcastersSubjectKeeps(db, txn, db', t);
      } else {
        ConfirmersSubjectKeeps(db, txn, db', t);
      }
    } else {
      OthersFrozen(db, txn, db', t);
      FrozenStaysOk(db, db', t);
    }
  }

  lemma InsertKeeps(db: Db, txn: Transaction, db': Db, t: nat)
    requires Applies(db, txn, db') && txn.InsertTx? && t !in db.txes && t in db'.txes
    ensures TablesOk(db', t)
  {
    assert forall x :: Of(db', x, t) ==> Of(db, x, t);
  }

  // ---- the invariant of nonces ----

  lemma OneInProgressKept(db: Db, txn: Transaction, db': Db)
    requires Shape(db) && Disciplined(db, txn) && OneInProgress(db)
    requires forall t :: t in db'.txes ==>
      if t in db.txes then Transition(txn, db.txes[t], db'.txes[t]) else db'.txes[t].state == Unstarted
    ensures OneInProgress(db')
  {
  }

  lemma MaxConfirmedIsConfirmed(db: Db)
    ensures MaxConfirmedNonce(db).Some? ==>
              exists u :: In(db, u, Confirmed) && db.txes[u].nonce == MaxConfirmedNonce(db)
    ensures forall u :: In(db, u, Confirmed) && db.txes[u].nonce.Some? ==>
              MaxConfirmedNonce(db).Some? && db.txes[u].nonce.value <= MaxConfirmedNonce(db).value
  {
    var rows := set t | t in db.txes && db.txes[t].state == Confirmed;
    var ids := Ordering.SortBy(rows, t => 0);
    var column := seq(|ids|, i requires 0 <= i < |ids| => assert ids[i] in rows; db.txes[ids[i]].nonce);
    SqlMaxIsMaximum(column);
    forall u | In(db, u, Confirmed) && db.txes[u].nonce.Some?
      ensures SqlMax(column).Some? && db.txes[u].nonce.value <= SqlMax(column).value
    {
      assert u in ids;
      var i :| 0 <= i < |ids| && ids[i] == u;
      assert column[i] == db.txes[u].nonce;
    }
    if SqlMax(column).Some? {
      var i :| 0 <= i < |column| && column[i] == SqlMax(column);
      assert ids[i] in rows;
      assert In(db, ids[i], Confirmed);
    }
  }

  ghost predicate HistoryGrows(w: World, w': World) {
    && w.confirmedEver <= w'.confirmedEver
    && forall a, n, t :: Spent(w.ledgers, a, n, t) ==> Spent(w'.ledgers, a, n, t)
  }

  /** The ledgers gain one entry when a transaction reaches 'unconfirmed', and never otherwise. */
  lemma SpentFollows(w: World, txn: Transaction, w': World, a: Address, n: int, t: nat)
    requires LedgersOk(w) && Moves(w, txn, w')
    ensures Spent(w'.ledgers, a, n, t) <==>
            Spent(w.ledgers, a, n, t)
            || (txn.SaveUnconfirmed? && a == txn.etx.from && Some(n) == txn.etx.nonce && t == txn.etx.id)
  {
  }

  lemma HistoryKept(w: World, txn: Transaction, w': World)
    requires LedgersOk(w) && Moves(w, txn, w')
    ensures HistoryGrows(w, w')
  {
    forall a, n, t | Spent(w.ledgers, a, n, t)
      ensures Spent(w'.ledgers, a, n, t)
    {
      SpentFollows(w, txn, w', a, n, t);
    }
  }

  lemma NextNonceKept(w: World, txn: Transaction, w': World, a: Address)
    requires LedgersOk(w) && NextNonceFollows(w.db, txn, w'.db) && w'.ledgers == LedgersAfter(w.ledgers, txn)
    ensures a in w'.ledgers <==> a in w'.db.nextNonce && w'.db.nextNonce[a].Some?
    ensures a in w'.ledgers ==> w'.db.nextNonce[a] == Some(w'.ledgers[a].first + |w'.ledgers[a].ids|)
  {
  }

  lemma NextNoncesKept(w: World, txn: Transaction, w': World)
    requires LedgersOk(w) && Moves(w, txn, w')
    ensures forall a :: a in w'.ledgers <==> a in w'.db.nextNonce && w'.db.nextNonce[a].Some?
    ensures forall a :: a in w'.ledgers ==> w'.db.nextNonce[a] == Some(w'.ledgers[a].first + |w'.ledgers[a].ids|)
  {
    forall a
      ensures a in w'.ledgers <==> a in w'.db.nextNonce && w'.db.nextNonce[a].Some?
      ensures a in w'.ledgers ==> w'.db.nextNonce[a] == Some(w'.ledgers[a].first + |w'.ledgers[a].ids|)
    {
      NextNonceKept(w, txn, w', a);
    }
  }

  lemma SpentHasDeparted(w: World, txn: Transaction, w': World, a: Address, n: int, t: nat)
    requires Shape(w.db) && LedgersOk(w) && Moves(w, txn, w') && Spent(w'.ledgers, a, n, t)
    ensures t in w'.db.txes && w'.db.txes[t].from == a && Departed(w'.db.txes[t].state)
  {
    SpentFollows(w, txn, w', a, n, t);
  }

  lemma LedgersKept(w: World, txn: Transaction, w': World)
    requires Shape(w.db) && LedgersOk(w) && Moves(w, txn, w')
    ensures LedgersOk(w')
  {
    NextNoncesKept(w, txn, w');
    forall a, n, t | Spent(w'.ledgers, a, n, t)
      ensures t in w'.db.txes && w'.db.txes[t].from == a && Departed(w'.db.txes[t].state)
    {
      SpentHasDeparted(w, txn, w', a, n, t);
    }
    forall a, m, n, t | Spent(w'.ledgers, a, m, t) && Spent(w'.ledgers, a, n, t)
      ensures m == n
    {
      SpentFollows(w, txn, w', a, m, t);
      SpentFollows(w, txn, w', a, n, t);
    }
  }

  lemma MissingIsOvertaken(w: World, t: nat)
    requires Inv(w) && In(w.db, t, Unconfirmed)
    requires In(Execute(w.db, MarkConfirmedMissing).db, t, ConfirmedMissingReceipt)
    ensures w.db.txes[t].nonce.Some? && Overtaken(w.ledgers, w.confirmedEver, w.db.txes[t].nonce.value)
  {
    MaxConfirmedIsConfirmed(w.db);
    MarkedIsLower(w.db, t);
    var u :| In(w.db, u, Confirmed) && w.db.txes[u].nonce == MaxConfirmedNonce(w.db);
    OvertakenBy(w, u, w.db.txes[t].nonce.value);
  }

  lemma MarkedIsLower(db: Db, t: nat)
    requires In(db, t, Unconfirmed) && In(Execute(db, MarkConfirmedMissing).db, t, ConfirmedMissingReceipt)
    ensures db.txes[t].nonce.Some? && MaxConfirmedNonce(db).Some? && db.txes[t].nonce.value < MaxConfirmedNonce(db).value
  {
  }

  lemma OvertakenBy(w: World, u: nat, n: int)
    requires Inv(w) && In(w.db, u, Confirmed) && w.db.txes[u].nonce.Some? && n < w.db.txes[u].nonce.value
    ensures Overtaken(w.ledgers, w.confirmedEver, n)
  {
    assert TxOk(w, u);
    assert Spent(w.ledgers, w.db.txes[u].from, w.db.txes[u].nonce.value, u);
  }

  lemma NonceKept(w: World, txn: Transaction, w': World, t: nat)
    requires Shape(w.db) && LedgersOk(w) && OneInProgress(w.db) && Moves(w, txn, w')
    requires t in w.db.txes && TxCheck(w.db.txes[t]) && NonceOk(w, t)
    requires In(w.db, t, Unconfirmed) && In(w'.db, t, ConfirmedMissingReceipt) ==>
               w.db.txes[t].nonce.Some? && Overtaken(w.ledgers, w.confirmedEver, w.db.txes[t].nonce.value)
    ensures t in w'.db.txes && NonceOk(w', t)
  {
    HistoryKept(w, txn, w');
    if w'.db.txes[t].state == InProgress {
      InProgressNonceKept(w, txn, w', t);
    } else if HandedOver(w'.db.txes[t].state) {
      if txn.SaveUnconfirmed? && txn.etx.id == t {
        SpentFollows(w, txn, w', txn.etx.from, txn.etx.nonce.value, t);
      } else {
        HandedOverKept(w, txn, w', t);
      }
    }
  }

  /** Only the transaction that holds it moves next_nonce. */
  lemma InProgressNonceKept(w: World, txn: Transaction, w': World, t: nat)
    requires OneInProgress(w.db) && Disciplined(w.db, txn) && NextNonceFollows(w.db, txn, w'.db)
    requires t in w.db.txes && w.db.txes[t].id == t && TxCheck(w.db.txes[t]) && NonceOk(w, t)
    requires t in w'.db.txes && w'.db.txes[t].state == InProgress
    requires Transition(txn, w.db.txes[t], w'.db.txes[t]) && (txn.SaveUnconfirmed? ==> In(w'.db, txn.etx.id, Unconfirmed))
    ensures NonceOk(w', t)
  {
    assert w.db.txes[t].state == InProgress ==> In(w.db, t, InProgress);
  }

  lemma HandedOverKept(w: World, txn: Transaction, w': World, t: nat)
    requires HistoryGrows(w, w') && t in w.db.txes && NonceOk(w, t) && t in w'.db.txes && HandedOver(w'.db.txes[t].state)
    requires Transition(txn, w.db.txes[t], w'.db.txes[t]) && w.db.txes[t].id == t && !(txn.SaveUnconfirmed? && txn.etx.id == t)
    requires txn.SaveReceipt? ==> txn.txId in w'.confirmedEver
    requires In(w.db, t, Unconfirmed) && In(w'.db, t, ConfirmedMissingReceipt) ==>
               w.db.txes[t].nonce.Some? && Overtaken(w.ledgers, w.confirmedEver, w.db.txes[t].nonce.value)
    ensures NonceOk(w', t)
  {
    if w.db.txes[t].nonce.Some? && Overtaken(w.ledgers, w.confirmedEver, w.db.txes[t].nonce.value) {
      StillOvertaken(w, w', w.db.txes[t].nonce.value);
    }
  }

  lemma StillOvertaken(w: World, w': World, n: int)
    requires HistoryGrows(w, w') && Overtaken(w.ledgers, w.confirmedEver, n)
    ensures Overtaken(w'.ledgers, w'.confirmedEver, n)
  {
    var a, m, u :| u in w.confirmedEver && Spent(w.ledgers, a, m, u) && n < m;
    assert Spent(w'.ledgers, a, m, u);
  }

  /** Every transaction of every process keeps the invariant. */
  lemma StepKeepsInv(w: World, txn: Transaction)
    requires Inv(w) && Enabled(w, txn)
    ensures Inv(Step(w, txn))
  {
    var w' := Step(w, txn);
    ShapeKept(w.db, txn, w'.db);
    StepMoves(w, txn);
    forall t | t in w'.db.txes
      ensures TxOk(w', t)
    {
      StepKeepsTx(w, txn, t);
    }
    OneInProgressKept(w.db, txn, w'.db);
    LedgersKept(w, txn, w');
  }

  lemma StepKeepsTx(w: World, txn: Transaction, t: nat)
    requires Inv(w) && Enabled(w, txn) && t in Step(w, txn).db.txes && Moves(w, txn, Step(w, txn))
    ensures TxOk(Step(w, txn), t)
  {
    var w' := Step(w, txn);
    if t in w.db.txes {
      assert TxOk(w, t);
      TablesKept(w.db, txn, w'.db, t);
      NonceKeptByStep(w, txn, t);
    } else {
      RowsFollowStateMachine(w.db, txn, w'.db, t);
      InsertKeeps(w.db, txn, w'.db, t);
    }
  }

  lemma NonceKeptByStep(w: World, txn: Transaction, t: nat)
    requires Inv(w) && Enabled(w, txn) && t in w.db.txes && Moves(w, txn, Step(w, txn)) && TxOk(w, t)
    ensures t in Step(w, txn).db.txes && NonceOk(Step(w, txn), t)
  {
    var w' := Step(w, txn);
    if In(w.db, t, Unconfirmed) && In(w'.db, t, ConfirmedMissingReceipt) {
      assert txn.MarkConfirmedMissing?;
      MissingIsOvertaken(w, t);
    }
    NonceKept(w, txn, w', t);
  }

  /** In every reachable state, under any interleaving and crash, the invariant holds. */
  lemma {:induction false} RunsKeepInv(w: World, log: seq<Transaction>)
    requires Inv(w) && Run(w, log).Some?
    ensures Inv(Run(w, log).value)
    decreases |log|
  {
    if log != [] {
      var before := log[..|log| - 1];
      RunsKeepInv(w, before);
      StepKeepsInv(Run(w, before).value, log[|log| - 1]);
    }
  }

  /** w' comes after w in some run: ledgers and history only grow, rows stay, fatal ones for good. */
  ghost predicate Later(w: World, w': World) {
    && w.confirmedEver <= w'.confirmedEver
    && (forall a :: a in w.ledgers ==>
          a in w'.ledgers && w'.ledgers[a].first == w.ledgers[a].first && w.ledgers[a].ids <= w'.ledgers[a].ids)
    && (forall t :: t in w.db.txes ==>
          t in w'.db.txes && w'.db.txes[t].from == w.db.txes[t].from && w'.db.txes[t].createdAt == w.db.txes[t].createdAt)
    && (forall t :: In(w.db, t, FatalError) ==> In(w'.db, t, FatalError))
  }

  lemma MovingIsLater(w: World, txn: Transaction, w': World)
    requires LedgersOk(w) && Moves(w, txn, w')
    ensures Later(w, w')
  {
    LedgersGrow(w, txn, w');
    forall t | t in w.db.txes
      ensures t in w'.db.txes && w'.db.txes[t].from == w.db.txes[t].from && w'.db.txes[t].createdAt == w.db.txes[t].createdAt
      ensures In(w.db, t, FatalError) ==> In(w'.db, t, FatalError)
    {
      TransitionKeeps(txn, w.db.txes[t], w'.db.txes[t]);
    }
  }

  lemma TransitionKeeps(txn: Transaction, row: EthTx, row': EthTx)
    requires Transition(txn, row, row')
    ensures row'.from == row.from && row'.createdAt == row.createdAt && (row.state == FatalError ==> row'.state == FatalError)
  {
  }

  lemma LedgersGrow(w: World, txn: Transaction, w': World)
    requires LedgersOk(w) && NextNonceFollows(w.db, txn, w'.db) && w'.ledgers == LedgersAfter(w.ledgers, txn)
    ensures forall a :: a in w.ledgers ==>
              a in w'.ledgers && w'.ledgers[a].first == w.ledgers[a].first && w.ledgers[a].ids <= w'.ledgers[a].ids
  {
  }

  lemma LaterIsTransitive(w0: World, w1: World, w2: World)
    requires Later(w0, w1) && Later(w1, w2)
    ensures Later(w0, w2)
  {
  }

  lemma {:induction false} RunIsLater(w: World, log: seq<Transaction>, longer: seq<Transaction>)
    requires Inv(w) && log <= longer && Run(w, longer).Some?
    ensures Run(w, log).Some? && Later(Run(w, log).value, Run(w, longer).value)
    decreases |longer|
  {
    if log == longer {
    } else {
      var before := longer[..|longer| - 1];
      assert log <= before;
      RunIsLater(w, log, before);
      RunsKeepInv(w, before);
      StepMoves(Run(w, before).value, longer[|longer| - 1]);
      MovingIsLater(Run(w, before).value, longer[|longer| - 1], Run(w, longer).value);
      LaterIsTransitive(Run(w, log).value, Run(w, before).value, Run(w, longer).value);
    }
  }
}
