/** eth_confirmer.go: fetching receipts, and giving up on transactions that never get one. */
module ConfirmerReceipts {
  import opened TxTables
  import opened TxTransactions
  import opened TxInvariant
  import opened TxInterference
  import opened TxStore
  import opened ConfirmerFrames

  /** The node returned a receipt that is complete and for the attempt it was asked about. */
  predicate Usable(q: Inquiry) {
    q.answer.Got? && q.answer.blockNumber.Some? && q.answer.txHash == q.attempt
  }

  function ReceiptFrom(answer: ReceiptAnswer): Receipt
    requires answer.Got? && answer.blockNumber.Some?
  {
    Receipt(answer.txHash, answer.blockHash, answer.blockNumber.value)
  }

  /** The node was asked about one attempt after the other, as long as it knew nothing. */
  ghost predicate InOrder(t: nat, attempts: seq<Attempt>, qs: seq<Inquiry>) {
    && |qs| <= |attempts|
    && (forall i :: 0 <= i < |qs| ==> qs[i].txId == t && qs[i].attempt == attempts[i].id && (i < |qs| - 1 ==> qs[i].answer.NotFound?))
    && (|qs| < |attempts| ==> qs != [] && !qs[|qs| - 1].answer.NotFound?)
  }

  predicate Found(qs: seq<Inquiry>) {
    qs != [] && Usable(qs[|qs| - 1])
  }

  /** r is for the attempt that was asked about, with the block that the node named. */
  predicate Witnesses(r: Receipt, q: Inquiry) {
    && q.answer.Got? && q.answer.blockNumber.Some?
    && r.attempt == q.attempt && r.blockHash == q.answer.blockHash && r.blockNumber == q.answer.blockNumber.value
  }

  /** t is confirmed, and its one receipt is what the node said. */
  ghost predicate ConfirmedBy(db: Db, db': Db, t: nat, q: Inquiry) {
    exists r :: Receipted(db, db', t, r) && Witnesses(r, q)
  }

  lemma ConfirmedAfterFrozen(db0: Db, db1: Db, db2: Db, t: nat, q: Inquiry)
    requires Frozen(db0, db1, t) && ConfirmedBy(db1, db2, t, q)
    ensures ConfirmedBy(db0, db2, t, q)
  {
    var r :| Receipted(db1, db2, t, r) && Witnesses(r, q);
    ReceiptedAfterFrozen(db0, db1, db2, t, r);
  }

  /** saveReceipt is called iff the last answer is usable, and then succeeds unless the database cannot
      be reached; otherwise the transaction stays as it is. */
  ghost predicate FetchResult(db: Db, db': Db, t: nat, qs: seq<Inquiry>, outages: int) {
    if Found(qs) && outages == 0 then ConfirmedBy(db, db', t, qs[|qs| - 1])
    else Frozen(db, db', t) && (if Found(qs) then outages > 0 else outages == 0)
  }

  /** No other transaction of mine was asked about. */
  ghost predicate AskedOnly(me: Process, db: Db, t: nat, q0: seq<Inquiry>, q: seq<Inquiry>) {
    forall u :: Owns(me, db, u) && u != t ==> About(q, u) == About(q0, u)
  }

  predicate Awaiting(db: Db, t: nat) {
    In(db, t, Unconfirmed) || In(db, t, ConfirmedMissingReceipt)
  }

  /** saveReceipt: t is confirmed and r is its one receipt; its attempts are as they were. */
  ghost predicate Receipted(db: Db, db': Db, t: nat, r: Receipt) {
    && Awaiting(db, t) && t in db'.txes && db'.txes[t] == db.txes[t].(state := Confirmed)
    && SameAttempts(db, db', t) && Of(db, r.attempt, t) && r in db'.receipts
    && (forall s :: s in db'.receipts && Of(db', s.attempt, t) ==> s == r)
  }

  lemma SavingReceipt(db: Db, r: Receipt, t: nat, db': Db)
    requires Applies(db, SaveReceipt(r, t), db') && t in db.txes && ReceiptsOk(db, t)
    ensures Receipted(db, db', t, r)
  {
  }

  ghost predicate Fetched(db: Db, db': Db, t: nat) {
    Frozen(db, db', t) || exists r :: Receipted(db, db', t, r)
  }

  /** Only the transactions in busy may have got a receipt, nothing else of mine changed. */
  ghost predicate FetchFrame(me: Process, busy: set<nat>, db: Db, db': Db) {
    && (forall t :: Owns(me, db, t) ==> if t in busy then Fetched(db, db', t) else Frozen(db, db', t))
    && (forall t :: Owns(me, db', t) && !Owns(me, db, t) ==> Newcomer(me, db', t))
  }

  lemma RelyIsFetchFrame(me: Process, busy: set<nat>, db: Db, db': Db)
    requires Rely(me, db, db')
    ensures FetchFrame(me, busy, db, db')
  {
  }

  lemma ReceiptedAfterFrozen(db0: Db, db1: Db, db2: Db, t: nat, r: Receipt)
    requires Frozen(db0, db1, t) && Receipted(db1, db2, t, r)
    ensures Receipted(db0, db2, t, r)
  {
    assert forall x :: Of(db0, x, t) ==> Of(db1, x, t);
    assert forall x :: Of(db2, x, t) ==> Of(db1, x, t);
  }

  lemma FetchedAfterFrozen(db0: Db, db1: Db, db2: Db, t: nat)
    requires Frozen(db0, db1, t) && Fetched(db1, db2, t)
    ensures Fetched(db0, db2, t)
  {
    if Frozen(db1, db2, t) {
      FrozenIsTransitive(db0, db1, db2, t);
    } else {
      var r :| Receipted(db1, db2, t, r);
      assert forall x :: Of(db0, x, t) ==> Of(db1, x, t);
      assert forall x :: Of(db2, x, t) ==> Of(db1, x, t);
      assert Receipted(db0, db2, t, r);
    }
  }

  lemma FetchedThenFrozen(db0: Db, db1: Db, db2: Db, t: nat)
    requires Fetched(db0, db1, t) && Frozen(db1, db2, t)
    ensures Fetched(db0, db2, t)
  {
    if Frozen(db0, db1, t) {
      FrozenIsTransitive(db0, db1, db2, t);
    } else {
      var r :| Receipted(db0, db1, t, r);
      assert forall x :: Of(db0, x, t) ==> Of(db1, x, t);
      assert forall x :: Of(db2, x, t) ==> Of(db1, x, t);
      assert Receipted(db0, db2, t, r);
    }
  }

  /** Each transaction is fetched for once only. */
  lemma FetchFramesCompose(me: Process, busy: set<nat>, more: set<nat>, db0: Db, db1: Db, db2: Db)
    requires !me.Broadcaster? && FetchFrame(me, busy, db0, db1) && FetchFrame(me, more, db1, db2) && busy !! more
    requires forall t :: t in more ==> Owns(me, db0, t)
    ensures FetchFrame(me, busy + more, db0, db2)
  {
    forall t | Owns(me, db0, t)
      ensures if t in busy + more then Fetched(db0, db2, t) else Frozen(db0, db2, t)
    {
      assert Fetched(db0, db1, t) && Owns(me, db1, t);
      if t in busy {
        FetchedThenFrozen(db0, db1, db2, t);
      } else if t in more {
        FetchedAfterFrozen(db0, db1, db2, t);
      } else {
        FrozenIsTransitive(db0, db1, db2, t);
      }
    }
    forall t | Owns(me, db2, t) && !Owns(me, db0, t)
      ensures Newcomer(me, db2, t)
    {
      if Owns(me, db1, t) {
        assert Frozen(db1, db2, t);
        FrozenIsTouched(db1, db2, t);
        NewcomerStays(me, db1, db2, t);
      }
    }
  }

  lemma OwnReceipt(me: Process, db: Db, r: Receipt, t: nat, db': Db)
    requires Applies(db, SaveReceipt(r, t), db') && Owns(me, db, t) && ReceiptsOk(db, t) && me.ReceiptWorker?
    ensures FetchFrame(me, {t}, db, db') && Receipted(db, db', t, r)
  {
    SavingReceipt(db, r, t, db');
    forall u | Owns(me, db, u) && u != t
      ensures Frozen(db, db', u)
    {
      OthersFrozen(db, SaveReceipt(r, t), db', u);
    }
    forall u
      ensures Owns(me, db', u) ==> Owns(me, db, u)
    {
      RowsFollowStateMachine(db, SaveReceipt(r, t), db', u);
    }
  }

  /** What a worker needs to know about a transaction somebody loaded for it. */
  ghost predicate Asked(db: Db, loaded: LoadedTx) {
    && Awaiting(db, loaded.row.id)
    && forall i :: 0 <= i < |loaded.attempts| ==> Of(db, loaded.attempts[i].id, loaded.row.id)
  }

  lemma StaysAsked(db: Db, db': Db, loaded: LoadedTx)
    requires Asked(db, loaded) && Frozen(db, db', loaded.row.id)
    ensures Asked(db', loaded)
  {
  }

  /** A worker of concurrentlyFetchReceipts; siblings are the transactions other workers have. */
  class ReceiptWork {
    const store: Store
    ghost const siblings: set<nat>

    constructor (store: Store, ghost siblings: set<nat>)
      ensures this.store == store && this.siblings == siblings
    {
      this.store, this.siblings := store, siblings;
    }

    ghost function Me(): Process {
      ReceiptWorker(siblings)
    }

    /** One round of the loop over etx.EthTxAttempts, and whether to break. */
    method FetchOne(loaded: LoadedTx, attempt: Attempt) returns (done: bool, ghost q: Inquiry)
      requires store.Valid() && Asked(store.db, loaded) && loaded.row.id !in siblings && Of(store.db, attempt.id, loaded.row.id)
      modifies store
      ensures store.Valid() && Onward(old(store.Now()), store.Now())
      ensures FetchFrame(Me(), {loaded.row.id}, old(store.db), store.db)
      ensures About(store.asked, loaded.row.id) == About(old(store.asked), loaded.row.id) + [q]
      ensures AskedOnly(Me(), old(store.db), loaded.row.id, old(store.asked), store.asked)
      ensures q.txId == loaded.row.id && q.attempt == attempt.id && (done <==> !q.answer.NotFound?)
      ensures FetchResult(old(store.db), store.db, loaded.row.id, [q], store.outages - old(store.outages))
    {
      var response := store.FetchReceipt(Me(), loaded.row.id, attempt.id);
      q := Inquiry(loaded.row.id, attempt.id, response);
      ghost var db1 := store.db;
      StaysAsked(old(store.db), db1, loaded);
      RelyIsFetchFrame(Me(), {loaded.row.id}, old(store.db), db1);
      if response.TooEarly? || (response.Got? && response.blockNumber.None?) {
        return true, q;
      } else if response.FetchError? {
        return true, q;
      }
      if response.Got? {
        if response.txHash != attempt.id {
          return true, q;
        }
        assert Of(old(store.db), attempt.id, loaded.row.id);
        var r := Save(loaded, ReceiptFrom(response));
        if r.Ok? {
          assert Witnesses(ReceiptFrom(response), q);
          ReceiptedAfterFrozen(old(store.db), db1, store.db, loaded.row.id, ReceiptFrom(response));
        }
        SavedSince(old(store.db), db1, store.db, loaded.row.id);
        return true, q;
      }
      return false, q;
    }

    lemma SavedSince(db0: Db, db1: Db, db2: Db, t: nat)
      requires Rely(Me(), db0, db1) && FetchFrame(Me(), {t}, db1, db2) && Owns(Me(), db0, t)
      ensures FetchFrame(Me(), {t}, db0, db2)
    {
      RelyIsFetchFrame(Me(), {}, db0, db1);
      FetchFramesCompose(Me(), {}, {t}, db0, db1, db2);
      assert {} + {t} == {t};
    }

    /** saveReceipt; its only error is that of the database. */
    method Save(loaded: LoadedTx, receipt: Receipt) returns (r: Status)
      requires store.Valid() && Asked(store.db, loaded) && loaded.row.id !in siblings && Of(store.db, receipt.attempt, loaded.row.id)
      modifies store
      ensures store.Valid() && Onward(old(store.Now()), store.Now()) && store.asked == old(store.asked)
      ensures FetchFrame(Me(), {loaded.row.id}, old(store.db), store.db)
      ensures if r.Ok? then Receipted(old(store.db), store.db, loaded.row.id, receipt) else r.why.DbFailure? && store.db == old(store.db)
      ensures store.outages == old(store.outages) + if r.Ok? then 0 else 1
    {
      ghost var before := store.db;
      RelyIsReflexive(Me(), before);
      RelyIsFetchFrame(Me(), {loaded.row.id}, before, before);
      assert ReceiptsOk(before, loaded.row.id) by {
        store.InvHolds();
        assert TxOk(store.world, loaded.row.id);
      }
      r := store.Transact(Me(), SaveReceipt(receipt, loaded.row.id));
      if r.Ok? {
        OwnReceipt(Me(), before, receipt, loaded.row.id, store.db);
      }
    }

    /** fetchReceipts for one transaction. qs is all that was asked about it meanwhile. */
    method FetchReceipts(loaded: LoadedTx) returns (ghost qs: seq<Inquiry>)
      requires store.Valid() && Asked(store.db, loaded) && loaded.row.id !in siblings
      modifies store
      ensures store.Valid() && Onward(old(store.Now()), store.Now())
      ensures FetchFrame(Me(), {loaded.row.id}, old(store.db), store.db)
      ensures About(store.asked, loaded.row.id) == About(old(store.asked), loaded.row.id) + qs
      ensures AskedOnly(Me(), old(store.db), loaded.row.id, old(store.asked), store.asked)
      ensures InOrder(loaded.row.id, loaded.attempts, qs)
      ensures FetchResult(old(store.db), store.db, loaded.row.id, qs, store.outages - old(store.outages))
    {
      qs := [];
      ghost var db0, q0 := store.db, store.asked;
      AskedNothing(loaded, db0, q0);
      for i := 0 to |loaded.attempts|
        invariant store.Valid() && Onward(old(store.Now()), store.Now()) && store.outages == old(store.outages)
        invariant StillAsking(loaded, i, db0, store.db, q0, store.asked, qs)
      {
        var done;
        done, qs := FetchAgain(loaded, i, db0, q0, qs);
        if done {
          return;
        }
      }
    }

    /** The first i attempts were asked about, the node knew none of them, and nothing happened to t. */
    ghost predicate StillAsking(loaded: LoadedTx, i: nat, db0: Db, db: Db, q0: seq<Inquiry>, q: seq<Inquiry>, qs: seq<Inquiry>) {
      && FetchFrame(Me(), {loaded.row.id}, db0, db) && Frozen(db0, db, loaded.row.id)
      && About(q, loaded.row.id) == About(q0, loaded.row.id) + qs && AskedOnly(Me(), db0, loaded.row.id, q0, q)
      && FoundNothing(loaded, i, qs)
    }

    lemma AskedNothing(loaded: LoadedTx, db: Db, q: seq<Inquiry>)
      requires Asked(db, loaded)
      ensures StillAsking(loaded, 0, db, db, q, q, [])
    {
      RelyIsReflexive(Me(), db);
      RelyIsFetchFrame(Me(), {loaded.row.id}, db, db);
    }

    ghost predicate FoundNothing(loaded: LoadedTx, i: nat, qs: seq<Inquiry>) {
      && |qs| == i <= |loaded.attempts|
      && forall j :: 0 <= j < i ==> qs[j].txId == loaded.row.id && qs[j].attempt == loaded.attempts[j].id && qs[j].answer.NotFound?
    }

    lemma DoneAt(loaded: LoadedTx, i: nat, before: seq<Inquiry>, qs: seq<Inquiry>)
      requires i < |loaded.attempts| && FoundNothing(loaded, i, before) && |qs| == i + 1 && qs[..i] == before
      requires qs[i].txId == loaded.row.id && qs[i].attempt == loaded.attempts[i].id && !qs[i].answer.NotFound?
      ensures InOrder(loaded.row.id, loaded.attempts, qs)
    {
      assert forall j :: 0 <= j < i ==> qs[j] == qs[..i][j];
    }

    /** The i-th round, after all before it found nothing. */
    method FetchAgain(loaded: LoadedTx, i: nat, ghost db0: Db, ghost q0: seq<Inquiry>, ghost before: seq<Inquiry>)
      returns (done: bool, ghost qs: seq<Inquiry>)
      requires store.Valid() && Asked(db0, loaded) && loaded.row.id !in siblings && i < |loaded.attempts|
      requires StillAsking(loaded, i, db0, store.db, q0, store.asked, before)
      modifies store
      ensures store.Valid() && Onward(old(store.Now()), store.Now())
      ensures FetchFrame(Me(), {loaded.row.id}, db0, store.db)
      ensures About(store.asked, loaded.row.id) == About(q0, loaded.row.id) + qs
      ensures AskedOnly(Me(), db0, loaded.row.id, q0, store.asked)
      ensures if done then InOrder(loaded.row.id, loaded.attempts, qs) else FoundNothing(loaded, i + 1, qs)
      ensures FetchResult(db0, store.db, loaded.row.id, qs, store.outages - old(store.outages))
    {
      ghost var db1, t := store.db, loaded.row.id;
      StaysAsked(db0, db1, loaded);
      ghost var q;
      done, q := FetchOne(loaded, loaded.attempts[i]);
      qs := before + [q];
      if done {
        DoneAt(loaded, i, before, qs);
      }
      OnceMore(t, db0, db1, store.db);
      OwnedStays(t, db0, db1);
      if Found([q]) && store.outages == old(store.outages) {
        ConfirmedAfterFrozen(db0, db1, store.db, t, q);
      } else {
        FrozenIsTransitive(db0, db1, store.db, t);
      }
    }

    lemma OwnedStays(t: nat, db0: Db, db1: Db)
      requires FetchFrame(Me(), {t}, db0, db1)
      ensures forall u :: Owns(Me(), db0, u) ==> Owns(Me(), db1, u)
    {
    }

    lemma OnceMore(t: nat, db0: Db, db1: Db, db2: Db)
      requires FetchFrame(Me(), {t}, db0, db1) && Frozen(db0, db1, t) && FetchFrame(Me(), {t}, db1, db2) && Owns(Me(), db0, t)
      ensures FetchFrame(Me(), {t}, db0, db2)
    {
      assert FetchFrame(Me(), {}, db0, db1);
      FetchFramesCompose(Me(), {}, {t}, db0, db1, db2);
      assert {} + {t} == {t};
    }
  }
}
