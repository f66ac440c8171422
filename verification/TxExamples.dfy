/** Concrete runs: reachable states that the code's comments take to be impossible. */
module TxExamples {
  import opened Options
  import opened TxTables
  import opened TxTransactions
  import opened TxInvariant
  import opened TxTheorems

  lemma Next(w: World, txn: Transaction, w': World)
    requires Reachable(w) && Enabled(w, txn) && Step(w, txn) == w'
    ensures Reachable(w')
  {
    var addresses, log :| Run(Fresh(addresses), log) == Some(w);
    assert (log + [txn])[..|log + [txn]| - 1] == log;
    assert Run(Fresh(addresses), log + [txn]) == Some(w');
  }

  // ---- key 7 hands over transaction 0 with nonce 3; key 8 has done nothing yet ----

  const WAITING := EthTx(0, 7, 0, 0, None, Unstarted, None, None)
  const SENT := EthTx(0, 7, 0, 0, Some(3), Unconfirmed, None, Some(EARLIEST_BROADCAST + 1))
  const FIRST := Attempt(1, 0, 20, None, Sending)

  function Before(): World {
    World(Db(map[0 := WAITING], map[], {}, map[7 := Some(3), 8 := None], 1, 1), map[7 := Ledger(3, [])], {})
  }

  function During(): World {
    Before().(db := Before().db.(txes := map[0 := WAITING.(nonce := Some(3), state := InProgress)], attempts := map[1 := FIRST], attemptSeq := 2))
  }

  function After(attempts: map<nat, Attempt>): World {
    World(Db(map[0 := SENT], attempts, {}, map[7 := Some(4), 8 := None], 1, 2), map[7 := Ledger(3, [0])], {})
  }

  const FIRST_SENT := FIRST.(state := Broadcast)

  function Arrived(): World {
    World(Db(map[0 := WAITING], map[], {}, map[7 := None, 8 := None], 1, 1), map[], {})
  }

  lemma ReachArrived()
    ensures Reachable(Arrived())
  {
    assert Run(Fresh({7, 8}), []) == Some(Fresh({7, 8}));
    assert Step(Fresh({7, 8}), InsertTx(7, 0, 0)) == Arrived();
    Next(Fresh({7, 8}), InsertTx(7, 0, 0), Arrived());
  }

  lemma ReachBefore()
    ensures Reachable(Before())
  {
    ReachArrived();
    Next(Arrived(), SaveNonce(7, 3), Before());
  }

  lemma ReachDuring()
    ensures Reachable(During())
  {
    ReachBefore();
    StartFirst();
    Next(Before(), SaveInProgressTx(WAITING.(nonce := Some(3)), FIRST.(id := 0)), During());
  }

  lemma StartFirst()
    ensures var txn := SaveInProgressTx(WAITING.(nonce := Some(3)), FIRST.(id := 0));
            Disciplined(Before().db, txn) && Execute(Before().db, txn) == Committed(During().db)
  {
  }

  lemma SendFirst()
    ensures var txn := SaveUnconfirmed(SENT.(state := InProgress), FIRST);
            && Execute(During().db, txn) == Committed(After(map[1 := FIRST_SENT]).db)
            && LedgersAfter(During().ledgers, txn) == map[7 := Ledger(3, [0])]
  {
    var txn := SaveUnconfirmed(SENT.(state := InProgress), FIRST);
    assert LedgersAfter(During().ledgers, txn)[7] == Ledger(3, [0]);
  }

  lemma ReachAfter()
    ensures Reachable(After(map[1 := FIRST_SENT]))
  {
    ReachDuring();
    SendFirst();
    Next(During(), SaveUnconfirmed(SENT.(state := InProgress), FIRST), After(map[1 := FIRST_SENT]));
  }

  const STAMPED := FIRST_SENT.(stamp := Some(5))

  lemma ReachStamped()
    ensures Reachable(After(map[1 := STAMPED]))
  {
    ReachAfter();
    var w, w' := After(map[1 := FIRST_SENT]), After(map[1 := STAMPED]);
    assert UnstampedIds(w.db) == {1};
    assert Execute(w.db, SetBroadcastBefore(5)).db.attempts == w'.db.attempts;
    Next(w, SetBroadcastBefore(5), w');
  }

  lemma ReachResending()
    ensures Reachable(After(map[1 := FIRST]))
  {
    ReachStamped();
    Next(After(map[1 := STAMPED]), SaveInProgressAttempt(FIRST), After(map[1 := FIRST]));
  }

  /** An unconfirmed transaction can be left without any attempt: its only one could not be bumped,
      was sent again as it was, and the node then called it fatal. */
  lemma UnconfirmedWithoutAttempts()
    ensures exists w, t :: Reachable(w) && In(w.db, t, Unconfirmed) && AttemptIds(w.db, t) == {}
  {
    ReachResending();
    var w := After(map[]);
    Next(After(map[1 := FIRST]), DeleteAttempt(FIRST), w);
    assert In(w.db, 0, Unconfirmed) && AttemptIds(w.db, 0) == {};
  }

  // ---- then key 8 hands over transaction 1 with nonce 9, and that is confirmed ----

  const OTHER := EthTx(1, 8, 0, 0, Some(9), Unconfirmed, None, Some(EARLIEST_BROADCAST + 2))
  const SECOND := Attempt(2, 1, 20, None, Sending)

  function Starting(): World {
    World(Db(map[0 := SENT, 1 := OTHER.(nonce := None, state := Unstarted, broadcastAt := None)], map[1 := FIRST_SENT], {},
             map[7 := Some(4), 8 := Some(9)], 2, 2),
          map[7 := Ledger(3, [0]), 8 := Ledger(9, [])], {})
  }

  function Started(): World {
    Starting().(db := Starting().db.(
      txes := map[0 := SENT, 1 := OTHER.(state := InProgress, broadcastAt := None)], attempts := map[1 := FIRST_SENT, 2 := SECOND], attemptSeq := 3))
  }

  function Both(first: TxState, second: TxState, receipts: set<Receipt>, confirmed: set<nat>): World {
    World(Db(map[0 := SENT.(state := first), 1 := OTHER.(state := second)], map[1 := FIRST_SENT, 2 := SECOND.(state := Broadcast)],
             receipts, map[7 := Some(4), 8 := Some(10)], 2, 3),
          map[7 := Ledger(3, [0]), 8 := Ledger(9, [1])], confirmed)
  }

  function Inserted(): World {
    Starting().(db := Starting().db.(nextNonce := map[7 := Some(4), 8 := None]), ledgers := map[7 := Ledger(3, [0])])
  }

  lemma ReachInserted()
    ensures Reachable(Inserted())
  {
    ReachAfter();
    Next(After(map[1 := FIRST_SENT]), InsertTx(8, 0, 0), Inserted());
  }

  lemma ReachStarting()
    ensures Reachable(Starting())
  {
    ReachInserted();
    Next(Inserted(), SaveNonce(8, 9), Starting());
  }

  lemma ReachStarted()
    ensures Reachable(Started())
  {
    ReachStarting();
    StartSecond();
    Next(Starting(), SaveInProgressTx(OTHER.(state := Unstarted, broadcastAt := None), SECOND.(id := 0)), Started());
  }

  lemma StartSecond()
    ensures var txn := SaveInProgressTx(OTHER.(state := Unstarted, broadcastAt := None), SECOND.(id := 0));
            Disciplined(Starting().db, txn) && Execute(Starting().db, txn) == Committed(Started().db)
  {
  }

  lemma SendSecond()
    ensures var txn := SaveUnconfirmed(OTHER.(state := InProgress), SECOND);
            Execute(Started().db, txn) == Committed(Both(Unconfirmed, Unconfirmed, {}, {}).db)
  {
    assert Started().db.nextNonce[8 := Some(10)] == map[7 := Some(4), 8 := Some(10)];
  }

  lemma EnterSecond()
    ensures LedgersAfter(Started().ledgers, SaveUnconfirmed(OTHER.(state := InProgress), SECOND))
            == map[7 := Ledger(3, [0]), 8 := Ledger(9, [1])]
  {
    assert LedgersAfter(Started().ledgers, SaveUnconfirmed(OTHER.(state := InProgress), SECOND))[8] == Ledger(9, [1]);
  }

  lemma ReachBoth()
    ensures Reachable(Both(Unconfirmed, Unconfirmed, {}, {}))
  {
    ReachStarted();
    SendSecond();
    EnterSecond();
    Next(Started(), SaveUnconfirmed(OTHER.(state := InProgress), SECOND), Both(Unconfirmed, Unconfirmed, {}, {}));
  }

  const GOT := Receipt(2, 100, 50)

  lemma ReachConfirmed()
    ensures Reachable(Both(Unconfirmed, Confirmed, {GOT}, {1}))
  {
    ReachBoth();
    ConfirmSecond();
    Next(Both(Unconfirmed, Unconfirmed, {}, {}), SaveReceipt(GOT, 1), Both(Unconfirmed, Confirmed, {GOT}, {1}));
  }

  lemma ConfirmSecond()
    ensures Disciplined(Both(Unconfirmed, Unconfirmed, {}, {}).db, SaveReceipt(GOT, 1))
    ensures Execute(Both(Unconfirmed, Unconfirmed, {}, {}).db, SaveReceipt(GOT, 1)) == Committed(Both(Unconfirmed, Confirmed, {GOT}, {1}).db)
  {
  }

  lemma MarkingFirst()
    ensures Execute(Both(Unconfirmed, Confirmed, {GOT}, {1}).db, MarkConfirmedMissing)
            == Committed(Both(ConfirmedMissingReceipt, Confirmed, {GOT}, {1}).db)
  {
    var db := Both(Unconfirmed, Confirmed, {GOT}, {1}).db;
    MaxConfirmedIsNine(db);
    MarkingBelow(db, 9, Both(ConfirmedMissingReceipt, Confirmed, {GOT}, {1}).db);
  }

  lemma MarkingBelow(db: Db, n: int, db': Db)
    requires MaxConfirmedNonce(db) == Some(n) && db' == db.(txes := db'.txes) && db'.txes.Keys == db.txes.Keys
    requires forall t :: t in db.txes ==>
               db'.txes[t] == if db.txes[t].state == Unconfirmed && db.txes[t].nonce.Some? && db.txes[t].nonce.value < n
                              then db.txes[t].(state := ConfirmedMissingReceipt) else db.txes[t]
    ensures Execute(db, MarkConfirmedMissing) == Committed(db')
  {
    assert Execute(db, MarkConfirmedMissing).db.txes == db'.txes;
  }

  lemma MaxConfirmedIsNine(db: Db)
    requires In(db, 1, Confirmed) && db.txes[1].nonce == Some(9) && forall t :: In(db, t, Confirmed) ==> t == 1
    ensures MaxConfirmedNonce(db) == Some(9)
  {
    MaxConfirmedIsConfirmed(db);
  }

  lemma ReachMarked()
    ensures Reachable(Both(ConfirmedMissingReceipt, Confirmed, {GOT}, {1}))
  {
    ReachConfirmed();
    MarkingFirst();
    Next(Both(Unconfirmed, Confirmed, {GOT}, {1}), MarkConfirmedMissing, Both(ConfirmedMissingReceipt, Confirmed, {GOT}, {1}));
  }

  /** With two keys, a transaction can be marked as confirmed without a receipt although nothing of
      its own account was ever confirmed. */
  lemma MarkedByAnotherAccount()
    ensures exists w, t :: Reachable(w) && In(w.db, t, ConfirmedMissingReceipt)
                           && forall u :: u in w.confirmedEver ==> u in w.db.txes && w.db.txes[u].from != w.db.txes[t].from
  {
    ReachMarked();
    var w := Both(ConfirmedMissingReceipt, Confirmed, {GOT}, {1});
    assert In(w.db, 0, ConfirmedMissingReceipt);
  }
}
