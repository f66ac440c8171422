/** What the confirmer's workers leave alone, and what they may change, in the transactions they own. */
module ConfirmerFrames {
  import opened Options
  import opened TxTables
  import opened TxTransactions
  import opened TxInvariant
  import opened TxInterference

  ghost predicate NoneSending(db: Db, t: nat) {
    forall x :: Of(db, x, t) ==> db.attempts[x].state != Sending
  }

  /** Finishing what is being sent: the row and every other attempt stay as they are, nothing new
      appears unless something was being sent, and receipts can only go with the attempt. */
  ghost predicate Touched(db: Db, db': Db, t: nat) {
    && t in db.txes && t in db'.txes && db'.txes[t] == db.txes[t]
    && (forall x :: Of(db, x, t) && db.attempts[x].state != Sending ==> Of(db', x, t) && db'.attempts[x] == db.attempts[x])
    && (NoneSending(db, t) ==> forall x :: Of(db', x, t) ==> Of(db, x, t))
    && (forall r :: r in db'.receipts && Of(db', r.attempt, t) ==> r in db.receipts && Of(db, r.attempt, t))
    && (forall r :: r in db.receipts && Of(db, r.attempt, t) && db.attempts[r.attempt].state != Sending ==> r in db'.receipts)
  }

  ghost predicate Worked(me: Process, busy: set<nat>, db: Db, db': Db) {
    && (forall t :: Owns(me, db, t) ==> if t in busy then Touched(db, db', t) else Frozen(db, db', t))
    && (forall t :: Owns(me, db', t) && !Owns(me, db, t) ==> Newcomer(me, db', t))
  }

  lemma FrozenIsTouched(db: Db, db': Db, t: nat)
    requires Frozen(db, db', t)
    ensures Touched(db, db', t)
  {
  }

  lemma TouchedIsTransitive(db0: Db, db1: Db, db2: Db, t: nat)
    requires Touched(db0, db1, t) && Touched(db1, db2, t)
    ensures Touched(db0, db2, t)
  {
    assert NoneSending(db0, t) ==> NoneSending(db1, t);
  }

  lemma NewcomerStays(me: Process, db: Db, db': Db, t: nat)
    requires !me.Broadcaster? && t in db.txes && Newcomer(me, db, t) && Touched(db, db', t)
    ensures Newcomer(me, db', t)
  {
    assert NoneSending(db, t);
  }

  lemma WorkedIsTransitive(me: Process, busy: set<nat>, db0: Db, db1: Db, db2: Db)
    requires !me.Broadcaster? && Worked(me, busy, db0, db1) && Worked(me, busy, db1, db2)
    ensures Worked(me, busy, db0, db2)
  {
    forall t | Owns(me, db0, t)
      ensures if t in busy then Touched(db0, db2, t) else Frozen(db0, db2, t)
    {
      if t in busy {
        assert Touched(db0, db1, t) && Owns(me, db1, t);
        TouchedIsTransitive(db0, db1, db2, t);
      } else {
        assert Frozen(db0, db1, t) && Owns(me, db1, t);
        FrozenIsTransitive(db0, db1, db2, t);
      }
    }
    forall t | Owns(me, db2, t) && !Owns(me, db0, t)
      ensures Newcomer(me, db2, t)
    {
      if Owns(me, db1, t) {
        if t !in busy {
          FrozenIsTouched(db1, db2, t);
        }
        NewcomerStays(me, db1, db2, t);
      }
    }
  }

  lemma WorkedWidens(me: Process, busy: set<nat>, more: set<nat>, db: Db, db': Db)
    requires Worked(me, busy, db, db') && busy <= more
    ensures Worked(me, more, db, db')
  {
    forall t | Owns(me, db, t) && t !in busy
      ensures Touched(db, db', t)
    {
      FrozenIsTouched(db, db', t);
    }
  }

  lemma RelyIsWorked(me: Process, db: Db, db': Db)
    requires Rely(me, db, db')
    ensures Worked(me, {}, db, db')
  {
  }

  /** A worker's own transaction on one attempt of t. */
  lemma OwnStep(me: Process, db: Db, txn: Transaction, db': Db, t: nat)
    requires !me.Broadcaster? && Applies(db, txn, db') && Subjects(txn) == Some({t}) && db'.txes == db.txes && Touched(db, db', t)
    ensures Worked(me, {t}, db, db')
  {
    forall u | Owns(me, db, u) && u != t
      ensures Frozen(db, db', u)
    {
      OthersFrozen(db, txn, db', u);
    }
  }

  lemma FinishingAttempt(db: Db, txn: Transaction, db': Db)
    requires Applies(db, txn, db') && (txn.SaveSentAttempt? || txn.SaveInsufficientEth? || txn.DeleteAttempt?)
    requires txn.attempt.txId in db.txes && PricesOk(db, txn.attempt.txId)
    ensures NoneSending(db', txn.attempt.txId) && Touched(db, db', txn.attempt.txId)
    ensures db'.txes == db.txes
  {
    assert Of(db, txn.attempt.id, txn.attempt.txId);
    if txn.DeleteAttempt? {
      DroppingAttempt(db, txn.attempt, db');
    } else {
      SavingFinished(db, txn, db');
    }
  }

  lemma DroppingAttempt(db: Db, attempt: Attempt, db': Db)
    requires Applies(db, DeleteAttempt(attempt), db') && Of(db, attempt.id, attempt.txId) && PricesOk(db, attempt.txId)
    ensures NoneSending(db', attempt.txId) && Touched(db, db', attempt.txId) && db'.txes == db.txes
  {
    assert forall x :: Of(db', x, attempt.txId) ==> Of(db, x, attempt.txId) && x != attempt.id;
  }

  lemma SavingFinished(db: Db, txn: Transaction, db': Db)
    requires Applies(db, txn, db') && (txn.SaveSentAttempt? || txn.SaveInsufficientEth?)
    requires Of(db, txn.attempt.id, txn.attempt.txId) && PricesOk(db, txn.attempt.txId)
    ensures NoneSending(db', txn.attempt.txId) && Touched(db, db', txn.attempt.txId) && db'.txes == db.txes
  {
    RowsUntouched(db, txn, db');
    assert forall x :: Of(db', x, txn.attempt.txId) ==> Of(db, x, txn.attempt.txId);
  }

  lemma ReplacingAttempt(db: Db, previous: Attempt, replacement: Attempt, db': Db)
    requires Applies(db, SaveReplacement(previous, replacement), db') && previous.txId in db.txes
    ensures Touched(db, db', previous.txId) && db'.txes == db.txes
    ensures db'.attemptSeq == db.attemptSeq + 1 && IsRow(db', replacement.(id := db.attemptSeq))
  {
    assert Of(db, previous.id, previous.txId);
  }
}
