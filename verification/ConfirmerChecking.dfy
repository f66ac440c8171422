/** eth_confirmer.go: SetBroadcastBeforeBlockNum and CheckForReceipts as a whole. */
module ConfirmerChecking {
  import opened Options
  import opened TxTables
  import opened TxTransactions
  import opened TxInvariant
  import opened TxInterference
  import opened TxStore
  import opened ConfirmerQueries
  import opened ConfirmerBumping
  import opened ConfirmerReceipts

  /** Every transaction handed over has either all its broadcast attempts stamped or none: what
      SetBroadcastBeforeBlockNum brings about, and what the broadcasters cannot spoil. */
  ghost predicate AllStamped(db: Db) {
    forall t :: Handed(db, t) ==> Stamped(db, t)
  }

  lemma StampedStays(db: Db, db': Db, t: nat)
    requires Stamped(db, t) && SameAttempts(db, db', t)
    ensures Stamped(db', t)
  {
  }

  lemma AllStampedByOthers(db: Db, db': Db)
    requires AllStamped(db) && Rely(ConfirmerMain, db, db')
    ensures AllStamped(db')
  {
    forall t | Handed(db', t)
      ensures Stamped(db', t)
    {
      if Handed(db, t) {
        assert Owns(ConfirmerMain, db, t) && Frozen(db, db', t);
        StampedStays(db, db', t);
      } else {
        assert Owns(ConfirmerMain, db', t) && Newcomer(ConfirmerMain, db', t);
      }
    }
  }

  lemma AllStampedByFetching(busy: set<nat>, db: Db, db': Db)
    requires AllStamped(db) && FetchFrame(ReceiptWorker({}), busy, db, db')
    ensures AllStamped(db')
  {
    forall t | Handed(db', t)
      ensures Stamped(db', t)
    {
      if Handed(db, t) {
        assert Owns(ReceiptWorker({}), db, t) && Fetched(db, db', t);
        StampedStays(db, db', t);
      } else {
        assert Owns(ReceiptWorker({}), db', t) && Newcomer(ReceiptWorker({}), db', t);
      }
    }
  }

  lemma AllStampedByMarking(db: Db, db': Db)
    requires AllStamped(db) && Applies(db, MarkConfirmedMissing, db')
    ensures AllStamped(db')
  {
    forall t | Handed(db', t)
      ensures Stamped(db', t)
    {
      assert Handed(db, t);
      assert SameAttempts(db, db', t);
    }
  }

  lemma StampingStampsAll(db: Db, blockNum: int, db': Db)
    requires Applies(db, SetBroadcastBefore(blockNum), db')
    ensures AllStamped(db')
    ensures db'.txes == db.txes && db'.receipts == db.receipts && db'.attempts.Keys == db.attempts.Keys
    ensures forall x :: x in db.attempts ==> db'.attempts[x] == Stamp(db.attempts[x], blockNum)
  {
    forall t, x, y | Handed(db', t) && Of(db', x, t) && Of(db', y, t) && db'.attempts[y].state == Broadcast
      ensures db'.attempts[y].stamp.Some?
    {
      assert y in db.attempts;
    }
  }

  function Stamp(a: Attempt, blockNum: int): Attempt {
    if a.state == Broadcast && a.stamp.None? then a.(stamp := Some(blockNum)) else a
  }

  /** t is as it was, but for the attempts that were broadcast and had no stamp. */
  ghost predicate OnlyStamped(db: Db, db': Db, t: nat, blockNum: int) {
    && Kept(db, db', t)
    && (forall x :: Of(db', x, t) <==> Of(db, x, t))
    && (forall x :: Of(db, x, t) ==> db'.attempts[x] == Stamp(db.attempts[x], blockNum))
    && (forall r: Receipt :: Of(db, r.attempt, t) ==> (r in db'.receipts <==> r in db.receipts))
  }

  /** t was handed over meanwhile, and nothing but the stamping happened to it. */
  ghost predicate StampedNewcomer(db: Db, t: nat, blockNum: int) {
    && In(db, t, Unconfirmed)
    && (forall x :: Of(db, x, t) ==> db.attempts[x].state == Broadcast && db.attempts[x].stamp == Some(blockNum))
    && (forall r :: r in db.receipts ==> !Of(db, r.attempt, t))
  }

  ghost predicate Stamping(db: Db, db': Db, blockNum: int) {
    && (forall t :: Handed(db, t) ==> OnlyStamped(db, db', t, blockNum))
    && (forall t :: Handed(db', t) && !Handed(db, t) ==> StampedNewcomer(db', t, blockNum))
  }

  lemma StampedSince(db0: Db, db1: Db, blockNum: int, db2: Db)
    requires Rely(ConfirmerMain, db0, db1) && Applies(db1, SetBroadcastBefore(blockNum), db2)
    ensures Stamping(db0, db2, blockNum)
  {
    StampingStampsAll(db1, blockNum, db2);
    forall t | Handed(db0, t)
      ensures OnlyStamped(db0, db2, t, blockNum)
    {
      assert Owns(ConfirmerMain, db0, t) && Frozen(db0, db1, t);
      assert forall x :: Of(db1, x, t) <==> Of(db0, x, t);
    }
    forall t | Handed(db2, t) && !Handed(db0, t)
      ensures StampedNewcomer(db2, t, blockNum)
    {
      assert Owns(ConfirmerMain, db1, t) && Newcomer(ConfirmerMain, db1, t);
      assert forall x :: Of(db2, x, t) <==> Of(db1, x, t);
    }
  }

  // ---- what CheckForReceipts does to one transaction ----

  ghost predicate Missing(db: Db, db': Db, t: nat) {
    && In(db, t, Unconfirmed) && t in db'.txes && db'.txes[t] == db.txes[t].(state := ConfirmedMissingReceipt)
    && SameAttempts(db, db', t)
  }

  ghost predicate Pending(db: Db, db': Db, t: nat) {
    Fetched(db, db', t) || Missing(db, db', t)
  }

  /** t was given up, and every attempt of it that had been broadcast is older than the cutoff. */
  ghost predicate Expired(db: Db, db': Db, t: nat, cutoff: int) {
    && Awaiting(db, t) && t in db'.txes
    && db'.txes[t] == db.txes[t].(state := FatalError, nonce := None, error := Some(COULD_NOT_GET_RECEIPT), broadcastAt := None)
    && SameAttempts(db, db', t)
    && (exists x :: Of(db', x, t) && db'.attempts[x].stamp.Some?)
    && (forall x :: Of(db', x, t) && db'.attempts[x].state == Broadcast ==>
          db'.attempts[x].stamp.Some? && db'.attempts[x].stamp.value < cutoff)
  }

  lemma SameAttemptsTransitive(db0: Db, db1: Db, db2: Db, t: nat)
    requires SameAttempts(db0, db1, t) && SameAttempts(db1, db2, t)
    ensures SameAttempts(db0, db2, t)
  {
    assert forall x :: Of(db0, x, t) ==> Of(db1, x, t);
    assert forall x :: Of(db2, x, t) ==> Of(db1, x, t);
  }

  lemma PendingThenFrozen(db0: Db, db1: Db, db2: Db, t: nat)
    requires Pending(db0, db1, t) && Frozen(db1, db2, t)
    ensures Pending(db0, db2, t)
  {
    if Fetched(db0, db1, t) {
      FetchedThenFrozen(db0, db1, db2, t);
    } else {
      SameAttemptsTransitive(db0, db1, db2, t);
    }
  }

  lemma FetchedThenMarked(db0: Db, db1: Db, db2: Db, t: nat)
    requires Fetched(db0, db1, t) && Applies(db1, MarkConfirmedMissing, db2)
    ensures Pending(db0, db2, t)
  {
    assert SameAttempts(db1, db2, t);
    SameAttemptsTransitive(db0, db1, db2, t);
    if db2.txes[t] == db1.txes[t] {
      assert Frozen(db1, db2, t);
      FetchedThenFrozen(db0, db1, db2, t);
    }
  }

  lemma ExpiringIsBuried(db: Db, cutoff: int, db': Db, t: nat)
    requires Applies(db, MarkOldErrored(cutoff), db') && t in db.txes && db'.txes[t] != db.txes[t] && Stamped(db, t)
    ensures In(db, t, ConfirmedMissingReceipt) && Expired(db, db', t, cutoff)
  {
    assert Expires(db, cutoff, t);
    ExpiresIff(db, cutoff, t);
    ExpiryIsSafe(db, cutoff, t);
    assert forall x :: Of(db', x, t) <==> Of(db, x, t);
  }

  lemma ExpiredSince(db0: Db, db1: Db, cutoff: int, db2: Db, t: nat)
    requires Pending(db0, db1, t) && In(db1, t, ConfirmedMissingReceipt) && Expired(db1, db2, t, cutoff)
    ensures Expired(db0, db2, t, cutoff) && db0.txes[t].nonce == db1.txes[t].nonce
  {
    SameAttemptsTransitive(db0, db1, db2, t);
  }

  lemma RowUnchangedIsFrozen(db: Db, cutoff: int, db': Db, t: nat)
    requires Applies(db, MarkOldErrored(cutoff), db') && t in db.txes && db'.txes[t] == db.txes[t]
    ensures Frozen(db, db', t)
  {
  }

  /** Everything CheckForReceipts may do to a transaction that it was handed before it began. */
  ghost predicate Checked(db: Db, w': World, t: nat, cutoff: int) {
    && (Pending(db, w'.db, t) || (cutoff > 0 && Expired(db, w'.db, t, cutoff)))
    && (Missing(db, w'.db, t) || Expired(db, w'.db, t, cutoff) ==>
          db.txes[t].nonce.Some? && Overtaken(w'.ledgers, w'.confirmedEver, db.txes[t].nonce.value))
  }

  lemma PendingIsChecked(db: Db, w': World, t: nat, cutoff: int)
    requires t in w'.db.txes && NonceOk(w', t) && Handed(db, t) && Pending(db, w'.db, t)
    ensures Checked(db, w', t, cutoff)
  {
  }

  lemma PendingThenChecked(db: Db, w: World, cutoff: int, w': World, t: nat)
    requires t in w.db.txes && NonceOk(w, t) && t in w'.db.txes && NonceOk(w', t)
    requires Handed(db, t) && Pending(db, w.db, t) && Stamped(w.db, t) && cutoff > 0
    requires Applies(w.db, MarkOldErrored(cutoff), w'.db) && w'.ledgers == w.ledgers && w'.confirmedEver == w.confirmedEver
    ensures Checked(db, w', t, cutoff)
  {
    if w'.db.txes[t] == w.db.txes[t] {
      RowKeptIsChecked(db, w.db, cutoff, w', t);
    } else {
      ExpiredIsChecked(db, w, cutoff, w', t);
    }
  }

  lemma RowKeptIsChecked(db: Db, db1: Db, cutoff: int, w': World, t: nat)
    requires t in w'.db.txes && NonceOk(w', t) && Handed(db, t) && Pending(db, db1, t) && Applies(db1, MarkOldErrored(cutoff), w'.db)
    requires t in db1.txes && w'.db.txes[t] == db1.txes[t]
    ensures Checked(db, w', t, cutoff)
  {
    RowUnchangedIsFrozen(db1, cutoff, w'.db, t);
    PendingThenFrozen(db, db1, w'.db, t);
    PendingIsChecked(db, w', t, cutoff);
  }

  lemma ExpiredIsChecked(db: Db, w: World, cutoff: int, w': World, t: nat)
    requires t in w.db.txes && NonceOk(w, t) && Handed(db, t) && Pending(db, w.db, t) && Stamped(w.db, t) && cutoff > 0
    requires Applies(w.db, MarkOldErrored(cutoff), w'.db) && w'.ledgers == w.ledgers && w'.confirmedEver == w.confirmedEver
    requires w'.db.txes[t] != w.db.txes[t]
    ensures Checked(db, w', t, cutoff)
  {
    ExpiringIsBuried(w.db, cutoff, w'.db, t);
    ExpiredSince(db, w.db, cutoff, w'.db, t);
  }

  // ---- what CheckForReceipts leaves behind when it succeeds ----

  /** No unconfirmed transaction has a lower nonce than a confirmed one. */
  ghost predicate NoneOvertaken(db0: Db, db: Db) {
    forall t, u :: Handed(db0, t) && In(db, t, Unconfirmed) && In(db, u, Confirmed) ==> NonceKey(db)(u) <= NonceKey(db)(t)
  }

  ghost predicate Buried(db: Db, t: nat, cutoff: int) {
    && (exists x :: Of(db, x, t) && db.attempts[x].stamp.Some?)
    && (forall x :: Of(db, x, t) && db.attempts[x].stamp.Some? ==> db.attempts[x].stamp.value < cutoff)
  }

  /** No overtaken transaction is still waited for when its last stamp is below the cutoff. */
  ghost predicate NoneBuried(db: Db, cutoff: int) {
    forall t :: In(db, t, ConfirmedMissingReceipt) ==> !Buried(db, t, cutoff)
  }

  lemma MarkingLeavesNone(w: World, db0: Db, db': Db)
    requires Inv(w) && Applies(w.db, MarkConfirmedMissing, db')
    ensures NoneOvertaken(db0, db')
  {
    MaxConfirmedIsConfirmed(w.db);
    forall t, u | In(db', t, Unconfirmed) && In(db', u, Confirmed)
      ensures NonceKey(db')(u) <= NonceKey(db')(t)
    {
      assert TxOk(w, t) && TxOk(w, u) && In(w.db, u, Confirmed);
    }
  }

  lemma NoneOvertakenByOthers(db0: Db, db: Db, db': Db)
    requires NoneOvertaken(db0, db) && AllPending(db0, db) && Rely(ConfirmerMain, db, db')
    ensures NoneOvertaken(db0, db')
  {
    forall t, u | Handed(db0, t) && In(db', t, Unconfirmed) && In(db', u, Confirmed)
      ensures NonceKey(db')(u) <= NonceKey(db')(t)
    {
      assert Owns(ConfirmerMain, db, t) && Frozen(db, db', t);
      assert Owns(ConfirmerMain, db', u);
      assert Owns(ConfirmerMain, db, u) || Newcomer(ConfirmerMain, db', u);
      assert Frozen(db, db', u);
      assert In(db, t, Unconfirmed) && In(db, u, Confirmed);
    }
  }

  ghost predicate AllPending(db0: Db, db: Db) {
    forall t :: Handed(db0, t) ==> Pending(db0, db, t)
  }

  lemma NoneOvertakenByExpiry(db0: Db, db: Db, cutoff: int, db': Db)
    requires NoneOvertaken(db0, db) && Applies(db, MarkOldErrored(cutoff), db')
    ensures NoneOvertaken(db0, db')
  {
    forall t
      ensures t in db'.txes && db'.txes[t].state != FatalError ==> t in db.txes && db'.txes[t] == db.txes[t]
    {
      if t in db'.txes && db'.txes[t].state != FatalError {
        NotExpired(db, cutoff, db', t);
      }
    }
    NoneOvertakenAmongFewer(db0, db, db');
  }

  lemma NoneOvertakenAmongFewer(db0: Db, db: Db, db': Db)
    requires NoneOvertaken(db0, db)
    requires forall t :: t in db'.txes && db'.txes[t].state != FatalError ==> t in db.txes && db'.txes[t] == db.txes[t]
    ensures NoneOvertaken(db0, db')
  {
    forall t, u | Handed(db0, t) && In(db', t, Unconfirmed) && In(db', u, Confirmed)
      ensures NonceKey(db')(u) <= NonceKey(db')(t)
    {
      assert In(db, t, Unconfirmed) && In(db, u, Confirmed);
    }
  }

  lemma NotExpired(db: Db, cutoff: int, db': Db, t: nat)
    requires Applies(db, MarkOldErrored(cutoff), db') && t in db'.txes && db'.txes[t].state != FatalError
    ensures t in db.txes && db'.txes[t] == db.txes[t]
  {
  }

  lemma ExpiryLeavesNone(db: Db, cutoff: int, db': Db)
    requires Applies(db, MarkOldErrored(cutoff), db')
    ensures NoneBuried(db', cutoff)
  {
    forall t | In(db', t, ConfirmedMissingReceipt)
      ensures !Buried(db', t, cutoff)
    {
      ExpiresIff(db, cutoff, t);
      assert forall x :: Of(db', x, t) <==> Of(db, x, t);
    }
  }

  // ---- that every waiting transaction is asked about, and what follows from the answers ----

  /** Since, t was asked about by one attempt after the other. It is confirmed, by the receipt that was
      found, unless the database could not be reached; with none found it is not confirmed. */
  ghost predicate Inquired(db: Db, db': Db, t: nat, q0: seq<Inquiry>, q: seq<Inquiry>, outages: int) {
    exists qs: seq<Inquiry> :: About(q, t) == About(q0, t) + qs && InOrder(t, AttemptsOf(db, t), qs) && Answered(db, db', t, qs, outages)
  }

  ghost predicate Answered(db: Db, db': Db, t: nat, qs: seq<Inquiry>, outages: int) {
    && (Found(qs) && outages == 0 ==> ConfirmedBy(db, db', t, qs[|qs| - 1]))
    && (!Found(qs) ==> t in db'.txes && !In(db', t, Confirmed))
    && 0 <= outages
  }

  ghost predicate AllInquired(db: Db, db': Db, q0: seq<Inquiry>, q: seq<Inquiry>, outages: int) {
    forall t :: Awaiting(db, t) ==> Inquired(db, db', t, q0, q, outages)
  }

  /** Nobody else confirms a transaction, or takes that back. */
  ghost predicate Undisturbed(db: Db, db': Db, t: nat) {
    && t in db.txes && t in db'.txes && SameAttempts(db, db', t)
    && (forall r: Receipt :: Of(db, r.attempt, t) ==> (r in db'.receipts <==> r in db.receipts))
    && (db'.txes[t] == db.txes[t] || (!In(db, t, Confirmed) && !In(db', t, Confirmed)))
  }

  lemma FrozenIsUndisturbed(db: Db, db': Db, t: nat)
    requires Frozen(db, db', t)
    ensures Undisturbed(db, db', t)
  {
  }

  lemma UndisturbedIsTransitive(db0: Db, db1: Db, db2: Db, t: nat)
    requires Undisturbed(db0, db1, t) && Undisturbed(db1, db2, t)
    ensures Undisturbed(db0, db2, t)
  {
    SameAttemptsTransitive(db0, db1, db2, t);
    assert forall x :: Of(db0, x, t) ==> Of(db1, x, t);
  }

  /** t is not asked about either. */
  ghost predicate Quiet(db: Db, db': Db, t: nat, q: seq<Inquiry>, q': seq<Inquiry>) {
    Undisturbed(db, db', t) && About(q', t) == About(q, t)
  }

  ghost predicate AllQuiet(db: Db, db': Db, q: seq<Inquiry>, q': seq<Inquiry>) {
    forall t :: Handed(db, t) ==> Quiet(db, db', t, q, q')
  }

  lemma QuietOthers(db0: Db, db1: Db, s0: seq<Call>, s1: seq<Call>, q0: seq<Inquiry>, q1: seq<Inquiry>)
    requires Rely(ConfirmerMain, db0, db1) && LeftAlone(ConfirmerMain, db0, s0, s1, q0, q1)
    ensures AllQuiet(db0, db1, q0, q1)
  {
    forall t | Handed(db0, t)
      ensures Quiet(db0, db1, t, q0, q1)
    {
      assert Owns(ConfirmerMain, db0, t) && Frozen(db0, db1, t);
      FrozenIsUndisturbed(db0, db1, t);
    }
  }

  /** A table-wide update of rows that wait for a receipt. */
  lemma QuietMarking(db: Db, txn: Transaction, db': Db, q: seq<Inquiry>)
    requires Applies(db, txn, db') && (txn.MarkConfirmedMissing? || txn.MarkOldErrored?)
    ensures AllQuiet(db, db', q, q)
  {
    forall t | Handed(db, t)
      ensures Quiet(db, db', t, q, q)
    {
      MarkingDoesNotDisturb(db, txn, db', t);
    }
  }

  lemma QuietSoFar(db: Db, q: seq<Inquiry>)
    ensures AllQuiet(db, db, q, q)
  {
  }

  ghost predicate AllStillHanded(db: Db, db': Db) {
    forall t :: Handed(db, t) ==> Handed(db', t)
  }

  lemma HandedByOthers(db: Db, db': Db)
    requires Rely(ConfirmerMain, db, db')
    ensures AllStillHanded(db, db')
  {
    forall t | Handed(db, t)
      ensures Handed(db', t)
    {
      assert Owns(ConfirmerMain, db, t) && Frozen(db, db', t);
    }
  }

  lemma QuietTwice(db0: Db, db1: Db, db2: Db, q0: seq<Inquiry>, q1: seq<Inquiry>, q2: seq<Inquiry>)
    requires AllQuiet(db0, db1, q0, q1) && AllStillHanded(db0, db1) && AllQuiet(db1, db2, q1, q2)
    ensures AllQuiet(db0, db2, q0, q2)
  {
    forall t | Handed(db0, t)
      ensures Quiet(db0, db2, t, q0, q2)
    {
      assert Quiet(db0, db1, t, q0, q1) && Quiet(db1, db2, t, q1, q2);
      UndisturbedIsTransitive(db0, db1, db2, t);
    }
  }

  lemma InquiredByNow(db0: Db, db1: Db, db2: Db, db3: Db, loaded: seq<LoadedTx>, s0: seq<Call>, s1: seq<Call>,
                      q0: seq<Inquiry>, q1: seq<Inquiry>, q2: seq<Inquiry>, q3: seq<Inquiry>, before: int, outages: int)
    requires Rely(ConfirmerMain, db0, db1) && LeftAlone(ConfirmerMain, db0, s0, s1, q0, q1)
    requires forall t :: t in IdsOf(loaded) <==> Awaiting(db1, t)
    requires forall i :: 0 <= i < |loaded| ==> Inquired(db1, db2, loaded[i].row.id, q1, q2, before)
    requires (forall t :: Handed(db0, t) ==> Quiet(db2, db3, t, q2, q3)) && before <= outages
    ensures AllInquired(db0, db3, q0, q3, outages)
  {
    forall t | Awaiting(db0, t)
      ensures Inquired(db0, db3, t, q0, q3, outages)
    {
      assert Owns(ConfirmerMain, db0, t) && Frozen(db0, db1, t);
      assert t in IdsOf(loaded);
      InquiredSince(db0, db1, db2, t, q0, q1, q2, before);
      assert Quiet(db2, db3, t, q2, q3);
      InquiredStays(db0, db2, db3, t, q0, q2, q3, before, outages);
    }
  }

  lemma MarkingDoesNotDisturb(db: Db, txn: Transaction, db': Db, t: nat)
    requires Applies(db, txn, db') && (txn.MarkConfirmedMissing? || txn.MarkOldErrored?) && t in db.txes
    ensures Undisturbed(db, db', t)
  {
    if txn.MarkConfirmedMissing? {
      MissingDoesNotDisturb(db, db', t);
    } else {
      ExpiryDoesNotDisturb(db, txn.cutoff, db', t);
    }
  }

  lemma MissingDoesNotDisturb(db: Db, db': Db, t: nat)
    requires Applies(db, MarkConfirmedMissing, db') && t in db.txes
    ensures Undisturbed(db, db', t)
  {
  }

  lemma ExpiryDoesNotDisturb(db: Db, cutoff: int, db': Db, t: nat)
    requires Applies(db, MarkOldErrored(cutoff), db') && t in db.txes
    ensures Undisturbed(db, db', t)
  {
  }

  lemma ReceiptedStays(db0: Db, db1: Db, db2: Db, t: nat, r: Receipt)
    requires Receipted(db0, db1, t, r) && Undisturbed(db1, db2, t)
    ensures Receipted(db0, db2, t, r)
  {
    SameAttemptsTransitive(db0, db1, db2, t);
    assert Of(db1, r.attempt, t);
    assert forall s: Receipt :: Of(db2, s.attempt, t) ==> Of(db1, s.attempt, t);
  }

  lemma ConfirmedByStays(db0: Db, db1: Db, db2: Db, t: nat, q: Inquiry)
    requires ConfirmedBy(db0, db1, t, q) && Undisturbed(db1, db2, t)
    ensures ConfirmedBy(db0, db2, t, q)
  {
    var r :| Receipted(db0, db1, t, r) && Witnesses(r, q);
    ReceiptedStays(db0, db1, db2, t, r);
  }

  lemma InquiredStays(db0: Db, db1: Db, db2: Db, t: nat, q0: seq<Inquiry>, q1: seq<Inquiry>, q2: seq<Inquiry>, before: int, outages: int)
    requires Inquired(db0, db1, t, q0, q1, before) && Undisturbed(db1, db2, t) && About(q2, t) == About(q1, t) && before <= outages
    ensures Inquired(db0, db2, t, q0, q2, outages)
  {
    var qs: seq<Inquiry> :| About(q1, t) == About(q0, t) + qs && InOrder(t, AttemptsOf(db0, t), qs) && Answered(db0, db1, t, qs, before);
    if Found(qs) && outages == 0 {
      ConfirmedByStays(db0, db1, db2, t, qs[|qs| - 1]);
    }
    assert Answered(db0, db2, t, qs, outages);
  }

  lemma InquiredSince(db0: Db, db1: Db, db2: Db, t: nat, q0: seq<Inquiry>, q1: seq<Inquiry>, q2: seq<Inquiry>, outages: int)
    requires Frozen(db0, db1, t) && Inquired(db1, db2, t, q1, q2, outages) && About(q1, t) == About(q0, t)
    ensures Inquired(db0, db2, t, q0, q2, outages)
  {
    FrozenLoads(db0, db1, t);
    var qs: seq<Inquiry> :| About(q2, t) == About(q1, t) + qs && InOrder(t, AttemptsOf(db1, t), qs) && Answered(db1, db2, t, qs, outages);
    if Found(qs) && outages == 0 {
      ConfirmedAfterFrozen(db0, db1, db2, t, qs[|qs| - 1]);
    }
    assert Answered(db0, db2, t, qs, outages);
  }

  /** From what the worker did with t, at a time when t was still as it was loaded. */
  lemma InquiredNow(db0: Db, db1: Db, db2: Db, t: nat, q0: seq<Inquiry>, q1: seq<Inquiry>, q2: seq<Inquiry>, qs: seq<Inquiry>,
                    before: int, outages: int)
    requires Awaiting(db0, t) && Frozen(db0, db1, t) && FetchResult(db1, db2, t, qs, outages) && InOrder(t, AttemptsOf(db0, t), qs)
    requires About(q1, t) == About(q0, t) && About(q2, t) == About(q1, t) + qs && 0 <= before && 0 <= outages
    ensures Inquired(db0, db2, t, q0, q2, before + outages)
  {
    if Found(qs) && before + outages == 0 {
      ConfirmedAfterFrozen(db0, db1, db2, t, qs[|qs| - 1]);
    }
    assert Answered(db0, db2, t, qs, before + outages);
  }

  /** The transactions at hand, loaded one after the other. */
  ghost predicate AllAsked(db: Db, loaded: seq<LoadedTx>) {
    && (forall i :: 0 <= i < |loaded| ==> Asked(db, loaded[i]) && loaded[i] == Load(db, loaded[i].row.id))
    && (forall i, j :: 0 <= i < j < |loaded| ==> loaded[i].row.id != loaded[j].row.id)
  }

  function IdsOf(loaded: seq<LoadedTx>): set<nat> {
    set i | 0 <= i < |loaded| :: loaded[i].row.id
  }

  lemma IdsOfPrefix(loaded: seq<LoadedTx>, i: nat)
    requires i < |loaded|
    ensures IdsOf(loaded[..i + 1]) == IdsOf(loaded[..i]) + {loaded[i].row.id}
  {
    var longer, shorter := loaded[..i + 1], loaded[..i];
    assert forall j :: 0 <= j < i ==> longer[j] == shorter[j] == loaded[j];
    forall t | t in IdsOf(shorter) + {loaded[i].row.id}
      ensures t in IdsOf(longer)
    {
      if t in IdsOf(shorter) {
        var j :| 0 <= j < i && shorter[j].row.id == t;
        assert longer[j].row.id == t;
      } else {
        assert longer[i].row.id == t;
      }
    }
  }

  function LoadAll(db: Db, ids: seq<nat>): (loaded: seq<LoadedTx>)
    requires forall t :: t in ids ==> t in db.txes
    ensures |loaded| == |ids| && forall i :: 0 <= i < |ids| ==> loaded[i] == Load(db, ids[i])
  {
    assert forall i :: 0 <= i < |ids| ==> ids[i] in ids;
    seq(|ids|, i requires 0 <= i < |ids| => Load(db, ids[i]))
  }

  lemma AwaitedIsAsked(db: Db, t: nat)
    requires Shape(db) && Awaiting(db, t)
    ensures Asked(db, Load(db, t))
  {
    AttemptsOfIsComplete(db, t);
    var attempts := AttemptsOf(db, t);
    forall i | 0 <= i < |attempts|
      ensures Of(db, attempts[i].id, t)
    {
      assert attempts[i] in attempts;
      var x :| Of(db, x, t) && db.attempts[x] == attempts[i];
    }
  }

  lemma LoadedIds(db: Db, ids: seq<nat>)
    requires Shape(db) && forall t :: t in ids ==> t in db.txes
    ensures forall i :: 0 <= i < |ids| ==> LoadAll(db, ids)[i].row.id == ids[i]
    ensures forall t :: t in IdsOf(LoadAll(db, ids)) <==> t in ids
  {
    var loaded := LoadAll(db, ids);
    assert forall i :: 0 <= i < |ids| ==> ids[i] in ids && loaded[i].row.id == ids[i];
    forall t | t in ids
      ensures t in IdsOf(loaded)
    {
      var i :| 0 <= i < |ids| && ids[i] == t;
      assert loaded[i].row.id == t;
    }
  }

  lemma AwaitedOnce(db: Db)
    ensures forall t :: t in AwaitingReceipt(db) <==> Awaiting(db, t)
    ensures forall i, j :: 0 <= i < j < |AwaitingReceipt(db)| ==> AwaitingReceipt(db)[i] != AwaitingReceipt(db)[j]
  {
  }

  /** findEthTxsRequiringReceiptFetch returns all that await a receipt, each once. */
  lemma AwaitedAreAsked(db: Db)
    requires Shape(db)
    ensures forall t :: t in AwaitingReceipt(db) ==> t in db.txes
    ensures AllAsked(db, LoadAll(db, AwaitingReceipt(db)))
    ensures forall t :: t in IdsOf(LoadAll(db, AwaitingReceipt(db))) <==> Awaiting(db, t)
  {
    AwaitedOnce(db);
    var ids := AwaitingReceipt(db);
    LoadedIds(db, ids);
    LoadedAreAsked(db, ids);
  }

  lemma LoadedAreAsked(db: Db, ids: seq<nat>)
    requires Shape(db) && (forall t :: t in ids ==> t in db.txes && Awaiting(db, t)) && forall i, j :: 0 <= i < j < |ids| ==> ids[i] != ids[j]
    ensures AllAsked(db, LoadAll(db, ids))
  {
    var loaded := LoadAll(db, ids);
    forall i | 0 <= i < |loaded|
      ensures Asked(db, loaded[i]) && loaded[i] == Load(db, loaded[i].row.id) && loaded[i].row.id == ids[i]
    {
      assert ids[i] in ids;
      AwaitedIsAsked(db, ids[i]);
    }
  }

  class Checking {
    const store: Store
    const finalityDepth: int

    constructor (store: Store, finalityDepth: int)
      ensures this.store == store && this.finalityDepth == finalityDepth
    {
      this.store, this.finalityDepth := store, finalityDepth;
    }

    /** SetBroadcastBeforeBlockNum. */
    method SetBroadcastBeforeBlockNum(blockNum: int) returns (r: Status)
      requires store.Valid()
      modifies store
      ensures store.Valid() && Onward(old(store.Now()), store.Now())
      ensures r.Ok? ==> AllStamped(store.db) && Stamping(old(store.db), store.db, blockNum)
      ensures r.Ok? ==> |store.log| > old(|store.log|) && store.log[|store.log| - 1] == SetBroadcastBefore(blockNum)
      ensures r.Failed? ==> if r.why.Rejected? then blockNum <= 0 else OnlyUnreachable(r, old(store.outages), store.outages)
    {
      store.Interleave(ConfirmerMain);
      ghost var before := store.db;
      r := store.Transact(ConfirmerMain, SetBroadcastBefore(blockNum));
      if r.Ok? {
        StampingStampsAll(before, blockNum, store.db);
        StampedSince(old(store.db), before, blockNum, store.db);
      }
    }

    /** concurrentlyFetchReceipts: its workers share the list out between them. */
    method FetchAll(loaded: seq<LoadedTx>)
      requires store.Valid() && AllAsked(store.db, loaded)
      modifies store
      ensures store.Valid() && Onward(old(store.Now()), store.Now())
      ensures FetchedUpTo(loaded, |loaded|, old(store.db), store.db, old(store.asked), store.asked, store.outages - old(store.outages))
    {
      ghost var db0, q0, outages0 := store.db, store.asked, store.outages;
      NothingFetched(loaded, db0, q0);
      var worker := new ReceiptWork(store, {});
      for i := 0 to |loaded|
        invariant store.Valid() && Onward(old(store.Now()), store.Now())
        invariant FetchedUpTo(loaded, i, db0, store.db, q0, store.asked, store.outages - outages0)
      {
        FetchNext(worker, loaded, i, db0, q0, outages0);
      }
    }

    lemma EverythingFetched(loaded: seq<LoadedTx>, db0: Db, db: Db, q0: seq<Inquiry>, q: seq<Inquiry>, outages: int)
      requires FetchedUpTo(loaded, |loaded|, db0, db, q0, q, outages)
      ensures 0 <= outages && FetchFrame(ReceiptWorker({}), IdsOf(loaded), db0, db)
      ensures forall i :: 0 <= i < |loaded| ==> Inquired(db0, db, loaded[i].row.id, q0, q, outages)
    {
      assert loaded[..|loaded|] == loaded;
    }

    ghost predicate FetchedUpTo(loaded: seq<LoadedTx>, i: nat, db0: Db, db: Db, q0: seq<Inquiry>, q: seq<Inquiry>, outages: int) {
      && i <= |loaded| && 0 <= outages && FetchFrame(ReceiptWorker({}), IdsOf(loaded[..i]), db0, db)
      && (forall j :: 0 <= j < i ==> Inquired(db0, db, loaded[j].row.id, q0, q, outages))
      && (forall j :: i <= j < |loaded| ==> About(q, loaded[j].row.id) == About(q0, loaded[j].row.id))
    }

    method FetchNext(worker: ReceiptWork, loaded: seq<LoadedTx>, i: nat, ghost db0: Db, ghost q0: seq<Inquiry>, ghost outages0: int)
      requires worker.store == store && worker.siblings == {} && store.Valid() && i < |loaded| && AllAsked(db0, loaded)
      requires FetchedUpTo(loaded, i, db0, store.db, q0, store.asked, store.outages - outages0)
      modifies store
      ensures store.Valid() && Onward(old(store.Now()), store.Now())
      ensures FetchedUpTo(loaded, i + 1, db0, store.db, q0, store.asked, store.outages - outages0)
    {
      ghost var db1, q1, outages1 := store.db, store.asked, store.outages;
      assert loaded[i].row.id !in IdsOf(loaded[..i]);
      StaysAsked(db0, db1, loaded[i]);
      ghost var qs := worker.FetchReceipts(loaded[i]);
      FetchFramesCompose(ReceiptWorker({}), IdsOf(loaded[..i]), {loaded[i].row.id}, db0, db1, store.db);
      IdsOfPrefix(loaded, i);
      InquiredNow(db0, db1, store.db, loaded[i].row.id, q0, q1, store.asked, qs, outages1 - outages0, store.outages - outages1);
      OthersStayInquired(loaded, i, db0, db1, store.db, q0, q1, store.asked, outages1 - outages0, store.outages - outages0);
    }

    lemma OthersStayInquired(loaded: seq<LoadedTx>, i: nat, db0: Db, db1: Db, db2: Db, q0: seq<Inquiry>, q1: seq<Inquiry>, q2: seq<Inquiry>,
                             before: int, outages: int)
      requires i < |loaded| && AllAsked(db0, loaded) && FetchedUpTo(loaded, i, db0, db1, q0, q1, before) && before <= outages
      requires FetchFrame(ReceiptWorker({}), {loaded[i].row.id}, db1, db2) && AskedOnly(ReceiptWorker({}), db1, loaded[i].row.id, q1, q2)
      ensures forall j :: 0 <= j < i ==> Inquired(db0, db2, loaded[j].row.id, q0, q2, outages)
      ensures forall j :: i < j < |loaded| ==> About(q2, loaded[j].row.id) == About(q0, loaded[j].row.id)
    {
      forall j | 0 <= j < |loaded| && j != i
        ensures j < i ==> Inquired(db0, db2, loaded[j].row.id, q0, q2, outages)
        ensures i < j ==> About(q2, loaded[j].row.id) == About(q0, loaded[j].row.id)
      {
        OtherIsQuiet(loaded, i, j, db0, db1, db2, q1, q2);
        if j < i {
          InquiredStays(db0, db1, db2, loaded[j].row.id, q0, q1, q2, before, outages);
        }
      }
    }

    lemma OtherIsQuiet(loaded: seq<LoadedTx>, i: nat, j: nat, db0: Db, db1: Db, db2: Db, q1: seq<Inquiry>, q2: seq<Inquiry>)
      requires i < |loaded| && j < |loaded| && j != i && AllAsked(db0, loaded) && FetchFrame(ReceiptWorker({}), IdsOf(loaded[..i]), db0, db1)
      requires FetchFrame(ReceiptWorker({}), {loaded[i].row.id}, db1, db2) && AskedOnly(ReceiptWorker({}), db1, loaded[i].row.id, q1, q2)
      ensures Quiet(db1, db2, loaded[j].row.id, q1, q2)
    {
      var t := loaded[j].row.id;
      assert Asked(db0, loaded[j]) && Owns(ReceiptWorker({}), db0, t);
      assert Fetched(db0, db1, t) && Owns(ReceiptWorker({}), db1, t) && t != loaded[i].row.id;
      FrozenIsUndisturbed(db1, db2, t);
    }

    lemma NothingFetched(loaded: seq<LoadedTx>, db: Db, q: seq<Inquiry>)
      ensures FetchedUpTo(loaded, 0, db, db, q, q, 0)
    {
    }

    /** markConfirmedMissingReceipt. */
    method MarkConfirmedMissingReceipt(ghost db0: Db) returns (r: Status)
      requires store.Valid() && AllStamped(store.db) && AllFetched(db0, store.db)
      modifies store
      ensures store.Valid() && Onward(old(store.Now()), store.Now())
      ensures AllStamped(store.db) && AllPending(db0, store.db)
      ensures AllQuiet(old(store.db), store.db, old(store.asked), store.asked)
      ensures r.Ok? ==> NoneOvertaken(db0, store.db)
      ensures OnlyUnreachable(r, old(store.outages), store.outages)
    {
      GetReadyToMark(db0);
      ghost var db1, q1 := store.db, store.asked;
      r := MarkMissing(db0);
      QuietTwice(old(store.db), db1, store.db, old(store.asked), q1, store.asked);
    }

    ghost predicate AllFetched(db0: Db, db: Db) {
      forall t :: Handed(db0, t) ==> Fetched(db0, db, t)
    }

    lemma StillFetched(db0: Db, db: Db, db': Db)
      requires AllFetched(db0, db) && Rely(ConfirmerMain, db, db')
      ensures AllFetched(db0, db')
    {
      forall t | Handed(db0, t)
        ensures Fetched(db0, db', t)
      {
        assert Owns(ConfirmerMain, db, t) && Frozen(db, db', t);
        FetchedThenFrozen(db0, db, db', t);
      }
    }

    method GetReadyToMark(ghost db0: Db)
      requires store.Valid() && AllStamped(store.db) && AllFetched(db0, store.db)
      modifies store
      ensures store.Valid() && Onward(old(store.Now()), store.Now())
      ensures AllStamped(store.db) && AllFetched(db0, store.db) && store.outages == old(store.outages)
      ensures AllQuiet(old(store.db), store.db, old(store.asked), store.asked) && AllStillHanded(old(store.db), store.db)
    {
      store.Interleave(ConfirmerMain);
      AllStampedByOthers(old(store.db), store.db);
      StillFetched(db0, old(store.db), store.db);
      HandedByOthers(old(store.db), store.db);
      QuietOthers(old(store.db), store.db, old(store.calls), store.calls, old(store.asked), store.asked);
    }

    method MarkMissing(ghost db0: Db) returns (r: Status)
      requires store.Valid() && AllStamped(store.db) && AllFetched(db0, store.db)
      modifies store
      ensures store.Valid() && Onward(old(store.Now()), store.Now())
      ensures AllStamped(store.db) && AllPending(db0, store.db)
      ensures AllQuiet(old(store.db), store.db, old(store.asked), store.asked)
      ensures r.Ok? ==> NoneOvertaken(db0, store.db)
      ensures OnlyUnreachable(r, old(store.outages), store.outages)
    {
      ghost var w, log1 := store.world, store.log;
      QuietSoFar(store.db, store.asked);
      r := store.Transact(ConfirmerMain, MarkConfirmedMissing);
      if r.Ok? {
        AllStampedByMarking(w.db, store.db);
        QuietMarking(w.db, MarkConfirmedMissing, store.db, store.asked);
        assert NoneOvertaken(db0, store.db) by {
          store.LastStep(w, log1, MarkConfirmedMissing);
          MarkingLeavesNone(w, db0, store.db);
        }
        AllMarked(db0, w.db, store.db);
      }
    }

    lemma AllMarked(db0: Db, db1: Db, db2: Db)
      requires AllFetched(db0, db1) && Applies(db1, MarkConfirmedMissing, db2)
      ensures AllPending(db0, db2)
    {
      forall t | Handed(db0, t)
        ensures Pending(db0, db2, t)
      {
        FetchedThenMarked(db0, db1, db2, t);
      }
    }

    /** markOldTxesMissingReceiptAsErrored. */
    method MarkOldTxesMissingReceiptAsErrored(blockNum: int, ghost db0: Db) returns (r: Status)
      requires store.Valid() && AllStamped(store.db) && AllPending(db0, store.db) && NoneOvertaken(db0, store.db)
      modifies store
      ensures store.Valid() && Onward(old(store.Now()), store.Now())
      ensures forall t :: Handed(db0, t) ==> Checked(db0, store.world, t, blockNum - finalityDepth)
      ensures AllQuiet(old(store.db), store.db, old(store.asked), store.asked)
      ensures NoneOvertaken(db0, store.db) && (r.Ok? && blockNum > finalityDepth ==> NoneBuried(store.db, blockNum - finalityDepth))
      ensures OnlyUnreachable(r, old(store.outages), store.outages)
    {
      GetReadyToExpire(db0);
      ghost var db1, q1 := store.db, store.asked;
      r := ExpireBelow(blockNum - finalityDepth, db0);
      QuietTwice(old(store.db), db1, store.db, old(store.asked), q1, store.asked);
    }

    method GetReadyToExpire(ghost db0: Db)
      requires store.Valid() && AllStamped(store.db) && AllPending(db0, store.db) && NoneOvertaken(db0, store.db)
      modifies store
      ensures store.Valid() && Onward(old(store.Now()), store.Now())
      ensures AllStamped(store.db) && AllPending(db0, store.db) && NoneOvertaken(db0, store.db) && store.outages == old(store.outages)
      ensures AllQuiet(old(store.db), store.db, old(store.asked), store.asked) && AllStillHanded(old(store.db), store.db)
    {
      store.Interleave(ConfirmerMain);
      HandedByOthers(old(store.db), store.db);
      ReadyToExpire(db0, old(store.db), store.db);
      QuietOthers(old(store.db), store.db, old(store.calls), store.calls, old(store.asked), store.asked);
    }

    method ExpireBelow(cutoff: int, ghost db0: Db) returns (r: Status)
      requires store.Valid() && AllStamped(store.db) && AllPending(db0, store.db) && NoneOvertaken(db0, store.db)
      modifies store
      ensures store.Valid() && Onward(old(store.Now()), store.Now())
      ensures forall t :: Handed(db0, t) ==> Checked(db0, store.world, t, cutoff)
      ensures NoneOvertaken(db0, store.db) && (r.Ok? && cutoff > 0 ==> NoneBuried(store.db, cutoff))
      ensures AllQuiet(old(store.db), store.db, old(store.asked), store.asked)
      ensures OnlyUnreachable(r, old(store.outages), store.outages)
    {
      QuietSoFar(store.db, store.asked);
      if cutoff <= 0 {
        AllChecked(db0, cutoff);
        return Ok;
      }
      r := Expire(cutoff, db0);
    }

    lemma ReadyToExpire(db0: Db, db: Db, db': Db)
      requires AllStamped(db) && AllPending(db0, db) && NoneOvertaken(db0, db) && Rely(ConfirmerMain, db, db')
      ensures AllStamped(db') && AllPending(db0, db') && NoneOvertaken(db0, db')
    {
      AllStampedByOthers(db, db');
      StillPending(db0, db, db');
      NoneOvertakenByOthers(db0, db, db');
    }

    method Expire(cutoff: int, ghost db0: Db) returns (r: Status)
      requires store.Valid() && AllStamped(store.db) && AllPending(db0, store.db) && NoneOvertaken(db0, store.db) && cutoff > 0
      modifies store
      ensures store.Valid() && Onward(old(store.Now()), store.Now())
      ensures forall t :: Handed(db0, t) ==> Checked(db0, store.world, t, cutoff)
      ensures NoneOvertaken(db0, store.db) && (r.Ok? ==> NoneBuried(store.db, cutoff))
      ensures AllQuiet(old(store.db), store.db, old(store.asked), store.asked)
      ensures OnlyUnreachable(r, old(store.outages), store.outages)
    {
      ghost var w, log1 := store.world, store.log;
      QuietSoFar(store.db, store.asked);
      r := store.Transact(ConfirmerMain, MarkOldErrored(cutoff));
      if r.Ok? {
        QuietMarking(w.db, MarkOldErrored(cutoff), store.db, store.asked);
        NoneOvertakenByExpiry(db0, w.db, cutoff, store.db);
        ExpiryLeavesNone(w.db, cutoff, store.db);
        forall t | Handed(db0, t)
          ensures Checked(db0, store.world, t, cutoff)
        {
          OldOneChecked(db0, w, log1, cutoff, t);
        }
      } else {
        AllChecked(db0, cutoff);
      }
    }

    lemma OldOneChecked(db0: Db, w: World, before: seq<Transaction>, cutoff: int, t: nat)
      requires store.Valid() && store.log == before + [MarkOldErrored(cutoff)] && store.Was(before, w)
      requires Stamped(w.db, t) && Pending(db0, w.db, t) && cutoff > 0 && Handed(db0, t) && Shape(w.db)
      ensures Checked(db0, store.world, t, cutoff)
    {
      assert Applies(w.db, MarkOldErrored(cutoff), store.world.db) && t in w.db.txes && NonceOk(w, t)
             && t in store.world.db.txes && NonceOk(store.world, t)
             && store.world.ledgers == w.ledgers && store.world.confirmedEver == w.confirmedEver by {
        store.LastStep(w, before, MarkOldErrored(cutoff));
        assert TxOk(w, t) && TxOk(store.world, t);
      }
      PendingThenChecked(db0, w, cutoff, store.world, t);
    }

    lemma StillPending(db0: Db, db1: Db, db2: Db)
      requires AllPending(db0, db1) && Rely(ConfirmerMain, db1, db2)
      ensures AllPending(db0, db2)
    {
      forall t | Handed(db0, t)
        ensures Pending(db0, db2, t)
      {
        assert Owns(ConfirmerMain, db1, t) && Frozen(db1, db2, t);
        PendingThenFrozen(db0, db1, db2, t);
      }
    }

    lemma AllChecked(db0: Db, cutoff: int)
      requires store.Valid() && AllPending(db0, store.db)
      ensures forall t :: Handed(db0, t) ==> Checked(db0, store.world, t, cutoff)
    {
      store.InvHolds();
      forall t | Handed(db0, t)
        ensures Checked(db0, store.world, t, cutoff)
      {
        assert TxOk(store.world, t);
        PendingIsChecked(db0, store.world, t, cutoff);
      }
    }

    method FindEthTxsRequiringReceiptFetch() returns (r: Status, etxs: seq<LoadedTx>)
      requires store.Valid() && AllStamped(store.db)
      modifies store
      ensures store.Valid() && Onward(old(store.Now()), store.Now()) && AllStamped(store.db) && Rely(ConfirmerMain, old(store.db), store.db)
      ensures LeftAlone(ConfirmerMain, old(store.db), old(store.calls), store.calls, old(store.asked), store.asked)
      ensures OnlyUnreachable(r, old(store.outages), store.outages) && (r.Ok? ==> store.outages == old(store.outages))
      ensures AllAsked(store.db, etxs) && forall t :: t in IdsOf(etxs) <==> Awaiting(store.db, t)
    {
      store.Interleave(ConfirmerMain);
      r := store.Reach();
      AllStampedByOthers(old(store.db), store.db);
      store.InvHolds();
      AwaitedAreAsked(store.db);
      etxs := LoadAll(store.db, AwaitingReceipt(store.db));
    }

    /** CheckForReceipts. Confirmed transactions stay as they are; the others may be confirmed by
        one receipt, marked as overtaken, or given up because all they ever broadcast is buried. All
        that wait are asked about, unless the query for them did not reach the database. */
    method CheckForReceipts(blockNum: int) returns (r: Status)
      requires store.Valid() && AllStamped(store.db)
      modifies store
      ensures store.Valid() && Onward(old(store.Now()), store.Now())
      ensures forall t :: Handed(old(store.db), t) ==> Checked(old(store.db), store.world, t, blockNum - finalityDepth)
      ensures || AllInquired(old(store.db), store.db, old(store.asked), store.asked, store.outages - old(store.outages))
              || (r == Failed(DbFailure) && AllQuiet(old(store.db), store.db, old(store.asked), store.asked))
      ensures r.Ok? ==> NoneOvertaken(old(store.db), store.db)
      ensures r.Ok? && blockNum > finalityDepth ==>
                forall t :: In(store.db, t, ConfirmedMissingReceipt) && Handed(old(store.db), t) ==> !Buried(store.db, t, blockNum - finalityDepth)
      ensures OnlyUnreachable(r, old(store.outages), store.outages)
    {
      var etxs;
      r, etxs := FindEthTxsRequiringReceiptFetch();
      ghost var db1, s1, q1, outages1 := store.db, store.calls, store.asked, store.outages;
      if !r.Ok? || |etxs| == 0 {
        FetchedByNobody(old(store.db), db1, db1, {});
        AllChecked(old(store.db), blockNum - finalityDepth);
        QuietOthers(old(store.db), db1, old(store.calls), s1, old(store.asked), q1);
        if r.Ok? {
          NobodyWaits(db1, etxs);
          NoneInquired(old(store.db), db1, etxs, old(store.asked), q1);
        }
        return;
      }
      FetchAll(etxs);
      ghost var db2, q2, outages2 := store.db, store.asked, store.outages;
      EverythingFetched(etxs, db1, db2, q1, q2, outages2 - outages1);
      AllStampedByFetching(IdsOf(etxs), db1, db2);
      FetchedByNobody(old(store.db), db1, db2, IdsOf(etxs));
      r := Mark(blockNum, old(store.db));
      InquiredByNow(old(store.db), db1, db2, store.db, etxs, old(store.calls), s1, old(store.asked), q1, q2, store.asked,
                    outages2 - outages1, store.outages - outages1);
    }

    /** The two updates after the fetching. */
    method Mark(blockNum: int, ghost db0: Db) returns (r: Status)
      requires store.Valid() && AllStamped(store.db) && forall t :: Handed(db0, t) ==> Fetched(db0, store.db, t)
      modifies store
      ensures store.Valid() && Onward(old(store.Now()), store.Now())
      ensures forall t :: Handed(db0, t) ==> Checked(db0, store.world, t, blockNum - finalityDepth)
      ensures r.Ok? ==> NoneOvertaken(db0, store.db) && (blockNum > finalityDepth ==> NoneBuried(store.db, blockNum - finalityDepth))
      ensures AllQuietFor(db0, old(store.db), store.db, old(store.asked), store.asked)
      ensures OnlyUnreachable(r, old(store.outages), store.outages)
    {
      r := MarkConfirmedMissingReceipt(db0);
      if !r.Ok? {
        AllChecked(db0, blockNum - finalityDepth);
        return;
      }
      ghost var db1, q1 := store.db, store.asked;
      r := MarkOldTxesMissingReceiptAsErrored(blockNum, db0);
      StillQuiet(db0, old(store.db), db1, store.db, old(store.asked), q1, store.asked);
    }

    ghost predicate AllQuietFor(db0: Db, db: Db, db': Db, q: seq<Inquiry>, q': seq<Inquiry>) {
      forall t :: Handed(db0, t) ==> Quiet(db, db', t, q, q')
    }

    lemma StillQuiet(db0: Db, db1: Db, db2: Db, db3: Db, q1: seq<Inquiry>, q2: seq<Inquiry>, q3: seq<Inquiry>)
      requires forall t :: Handed(db0, t) ==> Fetched(db0, db1, t) && Pending(db0, db2, t)
      requires AllQuiet(db1, db2, q1, q2) && AllQuiet(db2, db3, q2, q3)
      ensures AllQuietFor(db0, db1, db3, q1, q3)
    {
      forall t | Handed(db0, t)
        ensures Quiet(db1, db3, t, q1, q3)
      {
        assert Handed(db1, t) && Handed(db2, t) && Quiet(db1, db2, t, q1, q2) && Quiet(db2, db3, t, q2, q3);
        UndisturbedIsTransitive(db1, db2, db3, t);
      }
    }

    lemma NoneInquired(db0: Db, db1: Db, loaded: seq<LoadedTx>, q0: seq<Inquiry>, q1: seq<Inquiry>)
      requires Rely(ConfirmerMain, db0, db1) && |loaded| == 0 && forall t :: t in IdsOf(loaded) <==> Awaiting(db1, t)
      ensures AllInquired(db0, db1, q0, q1, 0)
    {
      forall t: nat
        ensures !Awaiting(db0, t)
      {
        assert t !in IdsOf(loaded) && !Awaiting(db1, t);
        assert Owns(ConfirmerMain, db0, t) ==> Frozen(db0, db1, t);
      }
    }

    lemma NobodyWaits(db: Db, etxs: seq<LoadedTx>)
      requires |etxs| == 0 && forall t :: t in IdsOf(etxs) <==> Awaiting(db, t)
      ensures forall t :: !In(db, t, Unconfirmed) && !In(db, t, ConfirmedMissingReceipt)
    {
      forall t: nat
        ensures !In(db, t, Unconfirmed) && !In(db, t, ConfirmedMissingReceipt)
      {
        assert t !in IdsOf(etxs) && !Awaiting(db, t);
      }
    }

    lemma FetchedByNobody(db0: Db, db1: Db, db2: Db, busy: set<nat>)
      requires Rely(ConfirmerMain, db0, db1) && (db2 == db1 || FetchFrame(ReceiptWorker({}), busy, db1, db2))
      ensures forall t :: Handed(db0, t) ==> Fetched(db0, db2, t)
    {
      forall t | Handed(db0, t)
        ensures Fetched(db0, db2, t)
      {
        assert Owns(ConfirmerMain, db0, t) && Frozen(db0, db1, t) && Owns(ReceiptWorker({}), db1, t);
        if db2 != db1 {
          FetchedAfterFrozen(db0, db1, db2, t);
        }
      }
    }
  }
}
