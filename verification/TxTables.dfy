/** The tables the transaction manager works on, and the queries it runs against them. */
module TxTables {
  import opened Options
  import opened Ordering

  type Address = nat

  datatype TxState = Unstarted | InProgress | FatalError | Unconfirmed | ConfirmedMissingReceipt | Confirmed

  datatype AttemptState = Sending | InsufficientEth | Broadcast

  /** A row of eth_txes. Recipient, payload and gas limit never matter to the state machine. */
  datatype EthTx = EthTx(
    id: nat, from: Address, value: nat, createdAt: int,
    nonce: Option<int>, state: TxState, error: Option<string>, broadcastAt: Option<int>)

  /** A row of eth_tx_attempts. The id doubles as the transaction hash; 0 means not yet saved.
      Sending is the column value 'in_progress'; stamp is broadcast_before_block_num. */
  datatype Attempt = Attempt(id: nat, txId: nat, price: int, stamp: Option<int>, state: AttemptState)

  /** A row of eth_receipts; attempt stands for tx_hash. */
  datatype Receipt = Receipt(attempt: nat, blockHash: nat, blockNumber: int)

  /** nextNonce is keys.next_nonce; the two counters are the id sequences. */
  datatype Db = Db(
    txes: map<nat, EthTx>, attempts: map<nat, Attempt>, receipts: set<Receipt>,
    nextNonce: map<Address, Option<int>>, txSeq: nat, attemptSeq: nat)

  /** An eth_tx loaded with its attempts, highest gas price first. */
  datatype LoadedTx = LoadedTx(row: EthTx, attempts: seq<Attempt>)

  /** The states a transaction can be in once the broadcaster has handed it to the confirmer. */
  predicate HandedOver(state: TxState) {
    state == Unconfirmed || state == ConfirmedMissingReceipt || state == Confirmed
  }

  predicate Of(db: Db, x: nat, t: nat) {
    x in db.attempts && db.attempts[x].txId == t
  }

  predicate In(db: Db, t: nat, state: TxState) {
    t in db.txes && db.txes[t].state == state
  }

  predicate Handed(db: Db, t: nat) {
    t in db.txes && HandedOver(db.txes[t].state)
  }

  /** 2019-01-01, in seconds. */
  const EARLIEST_BROADCAST := 1546300800

  /** chk_error_cannot_be_empty, chk_broadcast_at_is_sane and chk_eth_txes_fsm. */
  predicate TxCheck(tx: EthTx) {
    && (tx.error.Some? ==> |tx.error.value| > 0)
    && (tx.broadcastAt.Some? ==> tx.broadcastAt.value > EARLIEST_BROADCAST)
    && match tx.state
    case Unstarted => tx.nonce.None? && tx.error.None? && tx.broadcastAt.None?
    case InProgress => tx.nonce.Some? && tx.error.None? && tx.broadcastAt.None?
    case FatalError => tx.nonce.None? && tx.error.Some? && tx.broadcastAt.None?
    case _ => tx.nonce.Some? && tx.error.None? && tx.broadcastAt.Some?
  }

  /** chk_eth_tx_attempts_fsm and chk_cannot_broadcast_before_block_zero. */
  predicate AttemptCheck(attempt: Attempt) {
    && (attempt.state != Broadcast ==> attempt.stamp.None?)
    && (attempt.stamp.Some? ==> attempt.stamp.value > 0)
  }

  /** SQL's MAX: NULLs are skipped and the maximum of no values is NULL. */
  function SqlMax(column: seq<Option<int>>): Option<int> {
    if column == [] then None else
      var rest := SqlMax(column[1..]);
      if column[0].None? then rest
      else if rest.None? || rest.value <= column[0].value then column[0]
      else rest
  }

  lemma {:induction false} SqlMaxIsMaximum(column: seq<Option<int>>)
    ensures SqlMax(column).None? <==> forall i :: 0 <= i < |column| ==> column[i].None?
    ensures SqlMax(column).Some? ==>
              && SqlMax(column) in column
              && forall i :: 0 <= i < |column| && column[i].Some? ==> column[i].value <= SqlMax(column).value
  {
    if column != [] {
      SqlMaxIsMaximum(column[1..]);
      assert forall i :: 1 <= i < |column| ==> column[i] == column[1..][i - 1];
      assert forall i :: 0 <= i < |column| - 1 ==> column[1..][i] == column[i + 1];
    }
  }

  function NonceKey(db: Db): nat -> int {
    t => if t in db.txes && db.txes[t].nonce.Some? then db.txes[t].nonce.value else 0
  }

  function DearestFirst(db: Db): nat -> int {
    x => if x in db.attempts then -db.attempts[x].price else 0
  }

  function ValueKey(db: Db): nat -> int {
    t => if t in db.txes then db.txes[t].value else 0
  }

  function CreatedKey(db: Db): nat -> int {
    t => if t in db.txes then db.txes[t].createdAt else 0
  }

  function AttemptIds(db: Db, t: nat): set<nat> {
    set x | x in db.attempts && db.attempts[x].txId == t
  }

  /** Preload("EthTxAttempts", ... Order("eth_tx_attempts.gas_price DESC")). */
  function AttemptsOf(db: Db, t: nat): seq<Attempt>
  {
    var ids := SortBy(AttemptIds(db, t), DearestFirst(db));
    seq(|ids|, i requires 0 <= i < |ids| => assert ids[i] in AttemptIds(db, t); db.attempts[ids[i]])
  }

  function Load(db: Db, t: nat): LoadedTx
    requires t in db.txes
  {
    LoadedTx(db.txes[t], AttemptsOf(db, t))
  }

  lemma AllAreLoaded(db: Db, t: nat)
    ensures forall x :: Of(db, x, t) ==> db.attempts[x] in AttemptsOf(db, t)
  {
    var ids := SortBy(AttemptIds(db, t), DearestFirst(db));
    var attempts := AttemptsOf(db, t);
    forall x | Of(db, x, t)
      ensures db.attempts[x] in attempts
    {
      assert x in ids;
      var i :| 0 <= i < |ids| && ids[i] == x;
      assert attempts[i] == db.attempts[x];
    }
  }

  lemma AttemptsOfIsComplete(db: Db, t: nat)
    ensures forall x :: Of(db, x, t) ==> db.attempts[x] in AttemptsOf(db, t)
    ensures forall a :: a in AttemptsOf(db, t) ==> exists x :: Of(db, x, t) && db.attempts[x] == a
    ensures forall i, j :: 0 <= i < j < |AttemptsOf(db, t)| ==> AttemptsOf(db, t)[i].price >= AttemptsOf(db, t)[j].price
  {
    var ids := SortBy(AttemptIds(db, t), DearestFirst(db));
    var attempts := AttemptsOf(db, t);
    assert forall i :: 0 <= i < |ids| ==> ids[i] in AttemptIds(db, t) && attempts[i] == db.attempts[ids[i]];
    AllAreLoaded(db, t);
    forall a | a in attempts
      ensures exists x :: Of(db, x, t) && db.attempts[x] == a
    {
      var i :| 0 <= i < |attempts| && attempts[i] == a;
      assert Of(db, ids[i], t);
    }
    forall i, j | 0 <= i < j < |attempts|
      ensures attempts[i].price >= attempts[j].price
    {
      assert Before(DearestFirst(db), ids[i], ids[j]);
    }
  }

  /** findEthTxsRequiringReceiptFetch. */
  function AwaitingReceipt(db: Db): seq<nat> {
    var rows := set t | t in db.txes && (In(db, t, Unconfirmed) || In(db, t, ConfirmedMissingReceipt));
    SortBy(rows, NonceKey(db))
  }

  /** getInProgressEthTxAttempts: attempts to finish sending for transactions already handed over. */
  function UnfinishedAttempts(db: Db, from: Address): set<nat> {
    set x | x in db.attempts && db.attempts[x].state == Sending
            && Handed(db, db.attempts[x].txId) && db.txes[db.attempts[x].txId].from == from
  }

  /** getInProgressEthTx's First: the lowest id among the address's in_progress rows. */
  function InProgressTx(db: Db, from: Address): Option<nat> {
    var rows := set t | t in db.txes && db.txes[t].state == InProgress && db.txes[t].from == from;
    if rows == {} then None else Some(Least(rows, t => 0))
  }

  function UnstartedOf(db: Db, from: Address): set<nat> {
    set t | t in db.txes && db.txes[t].state == Unstarted && db.txes[t].from == from
  }

  /** findNextUnstartedTransactionFromAddress: ORDER BY value ASC, created_at ASC, id ASC. */
  function NextUnstarted(db: Db, from: Address): Option<nat> {
    var rows := UnstartedOf(db, from);
    if rows == {} then None else
      var cheapest := db.txes[Least(rows, ValueKey(db))].value;
      var first := set t | t in rows && db.txes[t].value == cheapest;
      assert Least(rows, ValueKey(db)) in first;
      Some(Least(first, CreatedKey(db)))
  }

  /** The order in which an address's transactions are sent: the smallest value first, then the
      oldest, then the lowest id. */
  ghost predicate SentBefore(a: EthTx, b: EthTx) {
    a.value < b.value || (a.value == b.value && (a.createdAt < b.createdAt || (a.createdAt == b.createdAt && a.id < b.id)))
  }

  lemma NextUnstartedIsFirst(db: Db, from: Address)
    requires forall t :: t in db.txes ==> db.txes[t].id == t
    ensures match NextUnstarted(db, from)
            case None => UnstartedOf(db, from) == {}
            case Some(t) => t in UnstartedOf(db, from) && forall u :: u in UnstartedOf(db, from) && u != t ==> SentBefore(db.txes[t], db.txes[u])
  {
    var rows := UnstartedOf(db, from);
    if rows != {} {
      var cheapest := Least(rows, ValueKey(db));
      var first := set t | t in rows && db.txes[t].value == db.txes[cheapest].value;
      assert cheapest in first;
      var t := Least(first, CreatedKey(db));
      forall u | u in rows && u != t
        ensures SentBefore(db.txes[t], db.txes[u])
      {
        assert u != cheapest ==> Before(ValueKey(db), cheapest, u);
        assert u in first ==> Before(CreatedKey(db), t, u);
      }
    }
  }
}
