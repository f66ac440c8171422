/** Who issues which transaction, who may run at the same time, and what each process can rely on
    while the others run. */
module TxInterference {
  import opened TxTables
  import opened TxTransactions
  import opened TxInvariant

  /** The confirmer is one process that forks a worker per transaction while it fetches receipts
      and a worker per key while it resends, and waits for them. siblings are the transactions or
      keys that other workers of the same fork are busy with. */
  datatype Process =
    | Broadcaster(from: Address)
    | ConfirmerMain
    | ReceiptWorker(siblings: set<nat>)
    | KeyWorker(siblings: set<Address>)
    | Outside

  function FromOf(db: Db, t: nat): Address {
    if t in db.txes then db.txes[t].from else 0
  }

  /** Which part of the program issues a transaction. */
  datatype Issuer =
    | ByBroadcaster(from: Address)
    | ByConfirmer
    | ByReceiptWorker(txId: nat)
    | ByKeyWorker(from: Address)
    | ByOutside

  function IssuerOf(db: Db, txn: Transaction): Issuer {
    match txn
    case InsertTx(_, _, _) => ByOutside
    case SaveNonce(from, _) => ByBroadcaster(from)
    case SaveInProgressTx(etx, _) => ByBroadcaster(etx.from)
    case SaveUnconfirmed(etx, _) => ByBroadcaster(etx.from)
    case SaveFatallyErrored(etx) => ByBroadcaster(etx.from)
    case SaveReplacement(previous, _) =>
      if In(db, previous.txId, InProgress) then ByBroadcaster(FromOf(db, previous.txId)) else ByKeyWorker(FromOf(db, previous.txId))
    case SaveReceipt(_, t) => ByReceiptWorker(t)
    case SaveInProgressAttempt(attempt) => ByKeyWorker(FromOf(db, attempt.txId))
    case SaveSentAttempt(attempt) => ByKeyWorker(FromOf(db, attempt.txId))
    case SaveInsufficientEth(attempt) => ByKeyWorker(FromOf(db, attempt.txId))
    case DeleteAttempt(attempt) => ByKeyWorker(FromOf(db, attempt.txId))
    case _ => ByConfirmer
  }

  /** What a process issues itself. A worker keeps away from what its siblings are busy with. */
  predicate Mine(me: Process, issuer: Issuer) {
    match me
    case Broadcaster(a) => issuer == ByBroadcaster(a)
    case ConfirmerMain => issuer == ByConfirmer
    case ReceiptWorker(siblings) => issuer.ByReceiptWorker? && issuer.txId !in siblings
    case KeyWorker(siblings) => issuer.ByKeyWorker? && issuer.from !in siblings
    case Outside => issuer == ByOutside
  }

  /** The advisory locks and wait groups: one broadcaster per key, one confirmer in all, and its
      forked workers only next to their own siblings. */
  predicate Concurrent(me: Process, other: Issuer) {
    other.ByOutside? ||
    match me
    case Broadcaster(a) => other != ByBroadcaster(a)
    case ConfirmerMain => other.ByBroadcaster?
    case ReceiptWorker(siblings) => other.ByBroadcaster? || (other.ByReceiptWorker? && other.txId in siblings)
    case KeyWorker(siblings) => other.ByBroadcaster? || (other.ByKeyWorker? && other.from in siblings)
    case Outside => true
  }

  /** The transactions that are a process's own business. */
  predicate Owns(me: Process, db: Db, t: nat) {
    match me
    case Broadcaster(a) => t in db.txes && db.txes[t].from == a && !Departed(db.txes[t].state)
    case ConfirmerMain => Handed(db, t)
    case ReceiptWorker(siblings) => Handed(db, t) && t !in siblings
    case KeyWorker(siblings) => Handed(db, t) && db.txes[t].from !in siblings
    case Outside => false
  }

  /** How a transaction can become a process's business while it is not looking. */
  ghost predicate Newcomer(me: Process, db: Db, t: nat)
    requires t in db.txes
  {
    if me.Broadcaster? then db.txes[t].state == Unstarted
    else
      && db.txes[t].state == Unconfirmed
      && (forall x :: Of(db, x, t) ==> db.attempts[x].state == Broadcast && db.attempts[x].stamp.None?)
      && (forall r :: r in db.receipts ==> !Of(db, r.attempt, t))
  }

  ghost predicate Rely(me: Process, db: Db, db': Db) {
    && (forall t :: Owns(me, db, t) ==> Frozen(db, db', t))
    && (forall t :: Owns(me, db', t) && !Owns(me, db, t) ==> Newcomer(me, db', t))
    && (me.Broadcaster? && me.from in db.nextNonce ==> me.from in db'.nextNonce && db'.nextNonce[me.from] == db.nextNonce[me.from])
  }

  lemma FrozenIsTransitive(db0: Db, db1: Db, db2: Db, t: nat)
    requires Frozen(db0, db1, t) && Frozen(db1, db2, t)
    ensures Frozen(db0, db2, t)
  {
    assert forall x :: Of(db0, x, t) ==> Of(db1, x, t);
    assert forall x :: Of(db2, x, t) ==> Of(db1, x, t);
  }

  lemma RelyIsTransitive(me: Process, db0: Db, db1: Db, db2: Db)
    requires Rely(me, db0, db1) && Rely(me, db1, db2)
    ensures Rely(me, db0, db2)
  {
    forall t | Owns(me, db0, t)
      ensures Frozen(db0, db2, t)
    {
      assert Frozen(db0, db1, t) && Owns(me, db1, t);
      FrozenIsTransitive(db0, db1, db2, t);
    }
    forall t | Owns(me, db2, t) && !Owns(me, db0, t)
      ensures Newcomer(me, db2, t)
    {
      if Owns(me, db1, t) {
        assert Newcomer(me, db1, t) && Frozen(db1, db2, t);
        assert forall x :: Of(db2, x, t) ==> Of(db1, x, t);
      }
    }
  }

  lemma NotMySubject(me: Process, db: Db, txn: Transaction, t: nat)
    requires Shape(db) && Disciplined(db, txn) && Concurrent(me, IssuerOf(db, txn)) && Owns(me, db, t)
    requires Subjects(txn).Some?
    ensures t !in Subjects(txn).value
  {
    if me.Broadcaster? {
      NotTheBroadcasters(me, db, txn, t);
    }
  }

  lemma NotTheBroadcasters(me: Process, db: Db, txn: Transaction, t: nat)
    requires Shape(db) && Disciplined(db, txn) && Concurrent(me, IssuerOf(db, txn)) && Owns(me, db, t)
    requires Subjects(txn).Some? && me.Broadcaster?
    ensures t !in Subjects(txn).value
  {
  }

  /** The confirmer's table-wide updates pass by transactions it was not handed yet. */
  lemma BulkUpdatesSpareUnsent(db: Db, txn: Transaction, db': Db, t: nat)
    requires Applies(db, txn, db') && Subjects(txn).None? && t in db.txes && !Departed(db.txes[t].state) && StageOk(db, t)
    ensures Frozen(db, db', t)
  {
    assert forall x :: Of(db, x, t) ==> db.attempts[x].state == Sending;
    assert db'.receipts == db.receipts;
    assert forall x :: Of(db', x, t) <==> Of(db, x, t);
  }

  lemma OthersLeaveMineAlone(me: Process, w: World, txn: Transaction, t: nat)
    requires Inv(w) && Enabled(w, txn) && Concurrent(me, IssuerOf(w.db, txn)) && Owns(me, w.db, t)
    ensures Frozen(w.db, Step(w, txn).db, t)
  {
    if Subjects(txn).Some? {
      NotMySubject(me, w.db, txn, t);
      OthersFrozen(w.db, txn, Step(w, txn).db, t);
    } else {
      assert TxOk(w, t);
      BulkUpdatesSpareUnsent(w.db, txn, Step(w, txn).db, t);
    }
  }

  lemma HandingOverIsFresh(db: Db, etx: EthTx, attempt: Attempt, db': Db)
    requires Applies(db, SaveUnconfirmed(etx, attempt), db') && etx.id in db.txes && TablesOk(db, etx.id)
    ensures etx.id in db'.txes && Newcomer(ConfirmerMain, db', etx.id)
  {
    assert Of(db, attempt.id, etx.id);
    assert forall x :: Of(db', x, etx.id) ==> x == attempt.id;
  }

  lemma NewcomersAreFresh(me: Process, w: World, txn: Transaction, t: nat)
    requires Inv(w) && Enabled(w, txn)
    requires Owns(me, Step(w, txn).db, t) && !Owns(me, w.db, t)
    ensures Newcomer(me, Step(w, txn).db, t)
  {
    var db' := Step(w, txn).db;
    RowsFollowStateMachine(w.db, txn, db', t);
    if t in w.db.txes && !me.Broadcaster? {
      assert txn.SaveUnconfirmed? && txn.etx.id == t;
      assert TablesOk(w.db, t) by {
        assert TxOk(w, t);
      }
      HandingOverIsFresh(w.db, txn.etx, txn.attempt, db');
    }
  }

  lemma OthersRely(me: Process, w: World, txn: Transaction)
    requires Inv(w) && Enabled(w, txn) && Concurrent(me, IssuerOf(w.db, txn))
    ensures Rely(me, w.db, Step(w, txn).db)
  {
    forall t | Owns(me, w.db, t)
      ensures Frozen(w.db, Step(w, txn).db, t)
    {
      OthersLeaveMineAlone(me, w, txn, t);
    }
    forall t | Owns(me, Step(w, txn).db, t) && !Owns(me, w.db, t)
      ensures Newcomer(me, Step(w, txn).db, t)
    {
      NewcomersAreFresh(me, w, txn, t);
    }
    NextNonceMoves(w.db, txn, Step(w, txn).db);
  }

  /** A log in which every transaction comes from a process that may run next to me. */
  ghost predicate ByOthers(me: Process, w: World, log: seq<Transaction>)
    decreases |log|
  {
    log == [] ||
    var before := log[..|log| - 1];
    && ByOthers(me, w, before) && Run(w, log).Some?
    && Concurrent(me, IssuerOf(Run(w, before).value.db, log[|log| - 1]))
  }

  lemma {:induction false} RelyOnOthers(me: Process, w: World, log: seq<Transaction>)
    requires Inv(w) && ByOthers(me, w, log)
    ensures Run(w, log).Some? && Inv(Run(w, log).value) && Rely(me, w.db, Run(w, log).value.db)
    decreases |log|
  {
    if log != [] {
      var before := log[..|log| - 1];
      var txn := log[|log| - 1];
      RelyOnOthers(me, w, before);
      var w1 := Run(w, before).value;
      StepKeepsInv(w1, txn);
      OthersRely(me, w1, txn);
      RelyIsTransitive(me, w.db, w1.db, Step(w1, txn).db);
    }
  }

  lemma {:induction false} RunsCompose(w: World, first: seq<Transaction>, second: seq<Transaction>)
    requires Run(w, first).Some?
    ensures Run(w, first + second) == Run(Run(w, first).value, second)
    decreases |second|
  {
    if second == [] {
      assert first + second == first;
    } else {
      var before := second[..|second| - 1];
      RunsCompose(w, first, before);
      assert (first + second)[..|first + second| - 1] == first + before;
    }
  }
}
