/** Concrete runs: what an attempt that is being sent again hides from the confirmer's queries. */
module ConfirmerExamples {
  import opened Options
  import opened TxTables
  import opened TxTransactions
  import opened TxInvariant
  import opened TxTheorems
  import opened TxExamples
  import opened ConfirmerQueries
  import opened ConfirmerReorg
  import opened EthConfirmer

  // ---- a receipt for an attempt that is being sent again ----

  const LOST := Receipt(1, 100, 50)
  const NEW_HEAD := Head(200, 50, None)

  function Confirmed50(attempt: Attempt): World {
    World(Db(map[0 := SENT.(state := Confirmed)], map[1 := attempt], {LOST}, map[7 := Some(4), 8 := None], 1, 2),
          map[7 := Ledger(3, [0])], {0})
  }

  lemma ReachConfirmed50()
    ensures Reachable(Confirmed50(FIRST))
  {
    ReachResending();
    ConfirmFirst();
    Next(After(map[1 := FIRST]), SaveReceipt(LOST, 0), Confirmed50(FIRST));
  }

  lemma ConfirmFirst()
    ensures Disciplined(After(map[1 := FIRST]).db, SaveReceipt(LOST, 0))
    ensures Execute(After(map[1 := FIRST]).db, SaveReceipt(LOST, 0)) == Committed(Confirmed50(FIRST).db)
  {
  }

  lemma SendAgain()
    ensures Reachable(Confirmed50(FIRST_SENT)) && Applies(Confirmed50(FIRST).db, SaveSentAttempt(FIRST), Confirmed50(FIRST_SENT).db)
  {
    ReachConfirmed50();
    SavingAsSent();
    Next(Confirmed50(FIRST), SaveSentAttempt(FIRST), Confirmed50(FIRST_SENT));
  }

  lemma SavingAsSent()
    ensures Applies(Confirmed50(FIRST).db, SaveSentAttempt(FIRST), Confirmed50(FIRST_SENT).db)
  {
  }

  lemma LostIsOverlooked()
    ensures Overlooked(Confirmed50(FIRST).db, 0, LOST, [7]) && 0 !in ConfirmedAtOrAbove(Confirmed50(FIRST).db, Bottom(NEW_HEAD))
    ensures ConfirmedRow(Confirmed50(FIRST_SENT).db, 0, LOST, Bottom(NEW_HEAD)) && !InChain(LOST, NEW_HEAD)
  {
    assert Chain(NEW_HEAD) == [NEW_HEAD];
    FoundAboveIff(Confirmed50(FIRST).db, NEW_HEAD, 0);
  }

  /** EnsureConfirmedTransactionsInLongestChain, called while an attempt is still to be sent again,
      can leave a receipt outside the chain: the query passes it by, and sending brings it back. */
  lemma OverlookedReceiptComesBack()
    ensures exists w: World, w': World, t: nat, rc: Receipt, keys, head ::
              && Reachable(w) && Overlooked(w.db, t, rc, keys) && t !in ConfirmedAtOrAbove(w.db, Bottom(head))
              && Applies(w.db, SaveSentAttempt(w.db.attempts[rc.attempt]), w'.db) && Reachable(w')
              && ConfirmedRow(w'.db, t, rc, Bottom(head)) && !InChain(rc, head)
  {
    ReachConfirmed50();
    SendAgain();
    LostIsOverlooked();
    assert Confirmed50(FIRST).db.attempts[LOST.attempt] == FIRST;
  }

  // ---- a transaction that is given up while a dearer attempt of it was never sent ----

  const DEARER := Attempt(2, 0, 30, None, Sending)
  const NEXT := EthTx(1, 7, 0, 0, Some(4), Unconfirmed, None, Some(EARLIEST_BROADCAST + 2))
  const THIRD := Attempt(3, 1, 20, None, Sending)
  const GOT_THIRD := Receipt(3, 100, 50)

  function Bidding(): World {
    World(Db(map[0 := SENT], map[1 := STAMPED, 2 := DEARER], {}, map[7 := Some(4), 8 := None], 1, 3), map[7 := Ledger(3, [0])], {})
  }

  function Queued(): World {
    Bidding().(db := Bidding().db.(txes := map[0 := SENT, 1 := NEXT.(nonce := None, state := Unstarted, broadcastAt := None)], txSeq := 2))
  }

  function Beginning(): World {
    Queued().(db := Queued().db.(
      txes := map[0 := SENT, 1 := NEXT.(state := InProgress, broadcastAt := None)],
      attempts := map[1 := STAMPED, 2 := DEARER, 3 := THIRD], attemptSeq := 4))
  }

  function Pair(first: TxState, second: TxState, receipts: set<Receipt>, confirmed: set<nat>): World {
    World(Db(map[0 := SENT.(state := first), 1 := NEXT.(state := second)],
             map[1 := STAMPED, 2 := DEARER, 3 := THIRD.(state := Broadcast)],
             receipts, map[7 := Some(5), 8 := None], 2, 4),
          map[7 := Ledger(3, [0, 1])], confirmed)
  }

  lemma ReachBidding()
    ensures Reachable(Bidding())
  {
    ReachStamped();
    Next(After(map[1 := STAMPED]), SaveInProgressAttempt(DEARER.(id := 0)), Bidding());
  }

  lemma ReachQueued()
    ensures Reachable(Queued())
  {
    ReachBidding();
    Next(Bidding(), InsertTx(7, 0, 0), Queued());
  }

  lemma ReachBeginning()
    ensures Reachable(Beginning())
  {
    ReachQueued();
    StartThird();
    Next(Queued(), SaveInProgressTx(NEXT.(state := Unstarted, broadcastAt := None), THIRD.(id := 0)), Beginning());
  }

  lemma StartThird()
    ensures var txn := SaveInProgressTx(NEXT.(state := Unstarted, broadcastAt := None), THIRD.(id := 0));
            Disciplined(Queued().db, txn) && Execute(Queued().db, txn) == Committed(Beginning().db)
  {
  }

  lemma SendThird()
    ensures var txn := SaveUnconfirmed(NEXT.(state := InProgress), THIRD);
            Execute(Beginning().db, txn) == Committed(Pair(Unconfirmed, Unconfirmed, {}, {}).db)
  {
  }

  lemma EnterThird()
    ensures LedgersAfter(Beginning().ledgers, SaveUnconfirmed(NEXT.(state := InProgress), THIRD)) == map[7 := Ledger(3, [0, 1])]
  {
    assert LedgersAfter(Beginning().ledgers, SaveUnconfirmed(NEXT.(state := InProgress), THIRD))[7] == Ledger(3, [0, 1]);
  }

  lemma ReachPair()
    ensures Reachable(Pair(Unconfirmed, Unconfirmed, {}, {}))
  {
    ReachBeginning();
    SendThird();
    EnterThird();
    Next(Beginning(), SaveUnconfirmed(NEXT.(state := InProgress), THIRD), Pair(Unconfirmed, Unconfirmed, {}, {}));
  }

  lemma ConfirmThird()
    ensures Disciplined(Pair(Unconfirmed, Unconfirmed, {}, {}).db, SaveReceipt(GOT_THIRD, 1))
    ensures Execute(Pair(Unconfirmed, Unconfirmed, {}, {}).db, SaveReceipt(GOT_THIRD, 1))
            == Committed(Pair(Unconfirmed, Confirmed, {GOT_THIRD}, {1}).db)
  {
  }

  lemma ReachOvertaken()
    ensures Reachable(Pair(Unconfirmed, Confirmed, {GOT_THIRD}, {1}))
  {
    ReachPair();
    ConfirmThird();
    Next(Pair(Unconfirmed, Unconfirmed, {}, {}), SaveReceipt(GOT_THIRD, 1), Pair(Unconfirmed, Confirmed, {GOT_THIRD}, {1}));
  }

  lemma MarkingOlder()
    ensures Execute(Pair(Unconfirmed, Confirmed, {GOT_THIRD}, {1}).db, MarkConfirmedMissing)
            == Committed(Pair(ConfirmedMissingReceipt, Confirmed, {GOT_THIRD}, {1}).db)
  {
    var db := Pair(Unconfirmed, Confirmed, {GOT_THIRD}, {1}).db;
    MaxConfirmedIsFour(db);
    MarkingBelow(db, 4, Pair(ConfirmedMissingReceipt, Confirmed, {GOT_THIRD}, {1}).db);
  }

  lemma MaxConfirmedIsFour(db: Db)
    requires In(db, 1, Confirmed) && db.txes[1].nonce == Some(4) && forall t :: In(db, t, Confirmed) ==> t == 1
    ensures MaxConfirmedNonce(db) == Some(4)
  {
    MaxConfirmedIsConfirmed(db);
  }

  lemma ReachOverdue()
    ensures Reachable(Pair(ConfirmedMissingReceipt, Confirmed, {GOT_THIRD}, {1}))
  {
    ReachOvertaken();
    MarkingOlder();
    Next(Pair(Unconfirmed, Confirmed, {GOT_THIRD}, {1}), MarkConfirmedMissing, Pair(ConfirmedMissingReceipt, Confirmed, {GOT_THIRD}, {1}));
  }

  /** A transaction can expire although not all of its attempts were broadcast before the cutoff: the
      dearest was never sent at all. */
  lemma ExpiryIgnoresUnsentAttempts()
    ensures exists w: World, cutoff, t, x ::
              && Reachable(w) && Enabled(w, MarkOldErrored(cutoff)) && Expires(w.db, cutoff, t)
              && Of(w.db, x, t) && w.db.attempts[x].state == Sending && w.db.attempts[x].stamp.None?
  {
    ReachOverdue();
    OverdueExpires();
  }

  lemma OverdueExpires()
    ensures var w := Pair(ConfirmedMissingReceipt, Confirmed, {GOT_THIRD}, {1});
            Enabled(w, MarkOldErrored(10)) && Expires(w.db, 10, 0) && Of(w.db, 2, 0) && w.db.attempts[2] == DEARER
  {
    ExpiresByStamp(Pair(ConfirmedMissingReceipt, Confirmed, {GOT_THIRD}, {1}).db);
  }

  lemma ExpiresByStamp(db: Db)
    requires In(db, 0, ConfirmedMissingReceipt) && Of(db, 1, 0) && db.attempts[1].stamp == Some(5)
    requires forall x :: Of(db, x, 0) && x != 1 ==> db.attempts[x].stamp.None?
    ensures Execute(db, MarkOldErrored(10)).Committed? && Expires(db, 10, 0)
  {
    ExpiresIff(db, 10, 0);
  }
}
