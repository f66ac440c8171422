/** eth_confirmer.go: bumping the gas price of transactions that wait too long. */
module ConfirmerBumping {
  import opened Options
  import opened Ordering
  import opened GasPrice
  import opened TxTables
  import opened TxTransactions
  import opened TxInvariant
  import opened TxInterference
  import opened TxStore
  import opened ConfirmerQueries
  import opened ConfirmerFrames
  import opened ConfirmerSending

  /** newAttemptWithGasBump: the attempt to send next, id 0 if it is a new one. */
  function NextAttempt(gas: GasConfig, default: int, loaded: LoadedTx): Attempt {
    if loaded.attempts == [] then Attempt(0, loaded.row.id, default, None, Sending)
    else
      var previous := loaded.attempts[0];
      if previous.state == InsufficientEth then previous.(state := Sending)
      else
        match BumpGas(gas, default, previous.price)
        case Bumped(price) => Attempt(0, loaded.row.id, price, None, Sending)
        case _ => previous.(stamp := None, state := Sending)
  }

  /** A stalled, unconfirmed transaction as the query loaded it. */
  ghost predicate Due(db: Db, loaded: LoadedTx, limit: int) {
    var t := loaded.row.id;
    In(db, t, Unconfirmed) && Stalled(db, t, limit) && loaded == Load(db, t)
  }

  /** With any attempt at all, the next one is at least as dear as every other; it is the
      highest priced one again exactly when that ran out of eth or cannot be bumped. */
  lemma NextAttemptIsDearest(gas: GasConfig, default: int, db: Db, loaded: LoadedTx, limit: int)
    requires gas.bumpWei >= 1 && Shape(db) && Due(db, loaded, limit) && TablesOk(db, loaded.row.id)
    ensures var t, next := loaded.row.id, NextAttempt(gas, default, loaded);
            && Disciplined(db, SaveInProgressAttempt(next))
            && (forall x :: Of(db, x, t) ==> db.attempts[x].price <= next.price && (x != next.id ==> db.attempts[x].price < next.price))
            && (loaded.attempts != [] ==>
                  var top := loaded.attempts[0];
                  if top.state == InsufficientEth || !BumpGas(gas, default, top.price).Bumped?
                  then next.id == top.id && next.price == top.price
                  else next.id == 0 && BumpGas(gas, default, top.price) == Bumped(next.price))
  {
    if loaded.attempts != [] {
      TopIsDearest(db, loaded.row.id);
      BumpRaises(gas, default, loaded.attempts[0].price);
    } else {
      AttemptsOfIsComplete(db, loaded.row.id);
    }
  }

  lemma SavingAttempt(db: Db, attempt: Attempt, db': Db)
    requires Applies(db, SaveInProgressAttempt(attempt), db')
    ensures IsRow(db', Saved(db, attempt)) && db'.txes == db.txes
    ensures attempt.id == 0 ==> db'.attemptSeq == db.attemptSeq + 1
    ensures forall x :: Of(db, x, attempt.txId) && x != attempt.id ==> Of(db', x, attempt.txId) && db'.attempts[x] == db.attempts[x]
    ensures Saved(db, attempt).id != 0 && forall x :: x in db.attempts && x != attempt.id ==> x != Saved(db, attempt).id
  {
  }

  function Saved(db: Db, attempt: Attempt): Attempt {
    if attempt.id == 0 then attempt.(id := db.attemptSeq) else attempt
  }

  lemma AttemptAt(db: Db, t: nat, ids: seq<nat>, i: nat)
    requires ids == SortBy(AttemptIds(db, t), DearestFirst(db)) && i < |ids|
    ensures |AttemptsOf(db, t)| == |ids| && ids[i] in db.attempts && AttemptsOf(db, t)[i] == db.attempts[ids[i]]
  {
    assert ids[i] in AttemptIds(db, t);
  }

  lemma SameAttemptsLoad(db: Db, db': Db, t: nat)
    requires AttemptIds(db', t) == AttemptIds(db, t)
    requires forall x :: x in AttemptIds(db, t) ==> db'.attempts[x] == db.attempts[x]
    ensures AttemptsOf(db', t) == AttemptsOf(db, t)
  {
    SortByAgrees(AttemptIds(db, t), DearestFirst(db), DearestFirst(db'));
    SameRows(db, db', t, SortBy(AttemptIds(db, t), DearestFirst(db)));
  }

  lemma SameRows(db: Db, db': Db, t: nat, ids: seq<nat>)
    requires ids == SortBy(AttemptIds(db, t), DearestFirst(db)) == SortBy(AttemptIds(db', t), DearestFirst(db'))
    requires forall x :: x in ids ==> x in db.attempts && x in db'.attempts && db'.attempts[x] == db.attempts[x]
    ensures AttemptsOf(db', t) == AttemptsOf(db, t)
  {
    forall i | 0 <= i < |ids|
      ensures |AttemptsOf(db', t)| == |AttemptsOf(db, t)| == |ids| && AttemptsOf(db', t)[i] == AttemptsOf(db, t)[i]
    {
      AttemptAt(db, t, ids, i);
      AttemptAt(db', t, ids, i);
    }
    assert |AttemptsOf(db, t)| == |AttemptsOf(db', t)|;
  }

  lemma FrozenLoads(db: Db, db': Db, t: nat)
    requires Frozen(db, db', t)
    ensures Load(db', t) == Load(db, t)
  {
    forall x: nat
      ensures x in AttemptIds(db', t) <==> x in AttemptIds(db, t)
      ensures x in AttemptIds(db, t) ==> db'.attempts[x] == db.attempts[x]
    {
      assert Of(db, x, t) <==> Of(db', x, t);
    }
    SameAttemptsLoad(db, db', t);
  }

  lemma StaysDue(db: Db, db': Db, loaded: LoadedTx, limit: int)
    requires Due(db, loaded, limit) && Frozen(db, db', loaded.row.id)
    ensures Due(db', loaded, limit)
  {
    FrozenLoads(db, db', loaded.row.id);
    assert forall x :: Of(db', x, loaded.row.id) ==> Of(db, x, loaded.row.id);
  }

  /** A row the code may have worked on, at least kept as a row. */
  ghost predicate Kept(db: Db, db': Db, t: nat) {
    t in db.txes && t in db'.txes && db'.txes[t] == db.txes[t]
  }

  ghost predicate Reworked(me: Process, busy: set<nat>, db: Db, db': Db) {
    && (forall t :: Owns(me, db, t) ==> if t in busy then Kept(db, db', t) else Frozen(db, db', t))
    && (forall t :: Owns(me, db', t) && !Owns(me, db, t) ==> Newcomer(me, db', t))
  }

  lemma WorkedIsReworked(me: Process, busy: set<nat>, db: Db, db': Db)
    requires Worked(me, busy, db, db')
    ensures Reworked(me, busy, db, db')
  {
  }

  lemma ReworkedIsTransitive(me: Process, busy: set<nat>, more: set<nat>, db0: Db, db1: Db, db2: Db)
    requires !me.Broadcaster? && Reworked(me, busy, db0, db1) && Reworked(me, more, db1, db2)
    requires forall t :: t in more ==> Owns(me, db0, t)
    ensures Reworked(me, busy + more, db0, db2)
  {
    forall t | Owns(me, db0, t)
      ensures if t in busy + more then Kept(db0, db2, t) else Frozen(db0, db2, t)
    {
      assert Kept(db0, db1, t) && Owns(me, db1, t);
      if t !in busy + more {
        FrozenIsTransitive(db0, db1, db2, t);
      }
    }
    forall t | Owns(me, db2, t) && !Owns(me, db0, t)
      ensures Newcomer(me, db2, t)
    {
      if Owns(me, db1, t) {
        assert Frozen(db1, db2, t);
        FrozenIsTouched(db1, db2, t);
        NewcomerStays(me, db1, db2, t);
      }
    }
  }

  ghost predicate Dearest(db: Db, t: nat, top: nat) {
    Of(db, top, t) && forall x :: Of(db, x, t) ==> db.attempts[x].price <= db.attempts[top].price
  }

  ghost predicate Repeats(db: Db, top: nat, a: Attempt)
    requires top in db.attempts
  {
    a.id == top && a.price == db.attempts[top].price
  }

  /** a is what newAttemptWithGasBump makes for a transaction whose dearest attempt is top: the same again
      if that ran out of eth, or if no price within the limit is enough for the default price read
      since; otherwise a new attempt at the least price that is enough. */
  ghost predicate OfferOver(gas: GasConfig, db: Db, top: nat, a: Attempt, s0: seq<Call>, s: seq<Call>)
    requires top in db.attempts
  {
    if db.attempts[top].state == InsufficientEth then Repeats(db, top, a)
    else
      exists default :: CalledSince(s0, s, Quote(a.txId, default))
        && if NoneWithinLimit(gas, default, db.attempts[top].price) then Repeats(db, top, a)
           else !Of(db, a.id, a.txId) && Raised(gas, default, db.attempts[top].price, a.price)
  }

  /** The same for any number of attempts; without one it is a new attempt at the default price. */
  ghost predicate Offer(gas: GasConfig, db: Db, a: Attempt, s0: seq<Call>, s: seq<Call>) {
    if forall x :: !Of(db, x, a.txId) then CalledSince(s0, s, Quote(a.txId, a.price))
    else exists top :: Dearest(db, a.txId, top) && OfferOver(gas, db, top, a, s0, s)
  }

  lemma OfferOverStays(gas: GasConfig, db: Db, top: nat, a: Attempt, s0: seq<Call>, s1: seq<Call>, s2: seq<Call>, s3: seq<Call>)
    requires top in db.attempts && OfferOver(gas, db, top, a, s1, s2) && s0 <= s1 && s2 <= s3
    ensures OfferOver(gas, db, top, a, s0, s3)
  {
    if db.attempts[top].state != InsufficientEth {
      var default :| CalledSince(s1, s2, Quote(a.txId, default))
        && if NoneWithinLimit(gas, default, db.attempts[top].price) then Repeats(db, top, a)
           else !Of(db, a.id, a.txId) && Raised(gas, default, db.attempts[top].price, a.price);
      assert CalledSince(s0, s3, Quote(a.txId, default));
    }
  }

  /** An offer stays one as time goes by, and it was one before, as long as the attempts were the same. */
  lemma OfferStays(gas: GasConfig, db0: Db, db1: Db, a: Attempt, s0: seq<Call>, s1: seq<Call>, s2: seq<Call>, s3: seq<Call>)
    requires Offer(gas, db1, a, s1, s2) && SameAttempts(db0, db1, a.txId) && s0 <= s1 && s2 <= s3
    ensures Offer(gas, db0, a, s0, s3)
  {
    assert forall x :: Of(db0, x, a.txId) <==> Of(db1, x, a.txId);
    if exists x :: Of(db1, x, a.txId) {
      var top :| Dearest(db1, a.txId, top) && OfferOver(gas, db1, top, a, s1, s2);
      OfferOverStays(gas, db1, top, a, s0, s1, s2, s3);
      assert Dearest(db0, a.txId, top) && OfferOver(gas, db0, top, a, s0, s3);
    } else {
      StillCalled(s0, s1, s3, Quote(a.txId, a.price));
    }
  }

  /** It is at least as dear as every attempt the transaction had, and dearer when it is a new one. */
  lemma OfferOutbids(gas: GasConfig, db: Db, a: Attempt, s0: seq<Call>, s: seq<Call>)
    requires gas.bumpWei >= 1 && Offer(gas, db, a, s0, s)
    ensures forall x :: Of(db, x, a.txId) ==> db.attempts[x].price <= a.price
    ensures !Of(db, a.id, a.txId) ==> forall x :: Of(db, x, a.txId) ==> db.attempts[x].price + gas.bumpWei <= a.price
  {
    if exists x :: Of(db, x, a.txId) {
      var top :| Dearest(db, a.txId, top) && OfferOver(gas, db, top, a, s0, s);
      if !Repeats(db, top, a) {
        var default :| CalledSince(s0, s, Quote(a.txId, default)) && Raised(gas, default, db.attempts[top].price, a.price);
        assert Covers(gas, db.attempts[top].price, a.price);
      }
    }
  }

  /** The attempt was sent that newAttemptWithGasBump makes for t as it was in db. */
  ghost predicate NextWasSent(gas: GasConfig, db: Db, t: nat, s0: seq<Call>, s: seq<Call>) {
    exists a :: SentSince(s0, s, a) && a.txId == t && Offer(gas, db, a, s0, s)
  }

  lemma NextStaysSent(gas: GasConfig, db0: Db, db1: Db, t: nat, s0: seq<Call>, s1: seq<Call>, s2: seq<Call>, s3: seq<Call>)
    requires NextWasSent(gas, db1, t, s1, s2) && SameAttempts(db0, db1, t) && s0 <= s1 <= s2 <= s3
    ensures NextWasSent(gas, db0, t, s0, s3)
  {
    var a :| SentSince(s1, s2, a) && a.txId == t && Offer(gas, db1, a, s1, s2);
    StillSent(s1, s2, s3, a);
    StillSent(s0, s1, s3, a);
    OfferStays(gas, db0, db1, a, s0, s1, s2, s3);
  }

  /** Every attempt but the dearest is as it was. */
  ghost predicate CheaperKept(db: Db, db': Db, t: nat) {
    forall x, y :: Of(db, x, t) && Of(db, y, t) && db.attempts[x].price < db.attempts[y].price ==>
      Of(db', x, t) && db'.attempts[x] == db.attempts[x]
  }

  lemma CheaperWereKept(db0: Db, db1: Db, db2: Db, t: nat)
    requires SameAttempts(db0, db1, t) && CheaperKept(db1, db2, t)
    ensures CheaperKept(db0, db2, t)
  {
    assert forall x :: Of(db0, x, t) ==> Of(db1, x, t) && db0.attempts[x] == db1.attempts[x];
  }

  lemma CheaperStayKept(db0: Db, db1: Db, db2: Db, t: nat)
    requires CheaperKept(db0, db1, t) && SameAttempts(db1, db2, t)
    ensures CheaperKept(db0, db2, t)
  {
    assert forall x :: Of(db1, x, t) ==> Of(db2, x, t) && db2.attempts[x] == db1.attempts[x];
  }

  /** What bumping did to t: the next attempt was sent, nothing is left unsent, and every attempt but the
      dearest is as it was. */
  ghost predicate Rebid(gas: GasConfig, db: Db, db': Db, t: nat, s0: seq<Call>, s: seq<Call>) {
    Kept(db, db', t) && NoneSending(db', t) && NextWasSent(gas, db, t, s0, s) && CheaperKept(db, db', t)
  }

  lemma RebidStays(gas: GasConfig, db0: Db, db1: Db, db2: Db, t: nat, s0: seq<Call>, s1: seq<Call>, s2: seq<Call>)
    requires Rebid(gas, db0, db1, t, s0, s1) && Frozen(db1, db2, t) && s0 <= s1 <= s2
    ensures Rebid(gas, db0, db2, t, s0, s2)
  {
    NextStaysSent(gas, db0, db0, t, s0, s0, s1, s2);
    CheaperStayKept(db0, db1, db2, t);
  }

  lemma OwnRework(me: Process, db: Db, txn: Transaction, db': Db, t: nat)
    requires !me.Broadcaster? && Applies(db, txn, db') && Subjects(txn) == Some({t}) && db'.txes == db.txes
    ensures Reworked(me, {t}, db, db')
  {
    forall u | Owns(me, db, u) && u != t
      ensures Frozen(db, db', u)
    {
      OthersFrozen(db, txn, db', u);
    }
  }

  /** The next attempt a of its transaction is saved, and only the dearest one may have changed for it. */
  ghost predicate Bid(gas: GasConfig, db: Db, db': Db, a: Attempt, s0: seq<Call>, s: seq<Call>) {
    && Offer(gas, db, a, s0, s)
    && (forall x, y :: Of(db, x, a.txId) && Of(db, y, a.txId) && db.attempts[x].price < db.attempts[y].price ==>
          Of(db', x, a.txId) && db'.attempts[x] == db.attempts[x] && db.attempts[x].state != Sending)
  }

  /** newAttemptWithGasBump reads the default price unless the dearest attempt ran out of eth. */
  predicate NeedsQuote(loaded: LoadedTx) {
    loaded.attempts == [] || loaded.attempts[0].state != InsufficientEth
  }

  lemma NextIsOffered(gas: GasConfig, default: int, db: Db, loaded: LoadedTx, limit: int, s0: seq<Call>, s: seq<Call>)
    requires gas.bumpWei >= 1 && Shape(db) && Due(db, loaded, limit)
    requires NeedsQuote(loaded) ==> CalledSince(s0, s, Quote(loaded.row.id, default))
    ensures Offer(gas, db, Saved(db, NextAttempt(gas, default, loaded)), s0, s)
  {
    var t, next := loaded.row.id, NextAttempt(gas, default, loaded);
    var a := Saved(db, next);
    if loaded.attempts == [] {
      AttemptsOfIsComplete(db, t);
      assert forall x :: !Of(db, x, t);
    } else {
      TopIsDearest(db, t);
      var top := loaded.attempts[0];
      assert Dearest(db, t, top.id);
      BumpIsLeastSufficient(gas, default, top.price, next.price);
      NextIsOver(gas, default, db, loaded, s0, s);
    }
  }

  lemma NextIsOver(gas: GasConfig, default: int, db: Db, loaded: LoadedTx, s0: seq<Call>, s: seq<Call>)
    requires gas.bumpWei >= 1 && Shape(db) && loaded.attempts != [] && IsRow(db, loaded.attempts[0])
    requires NeedsQuote(loaded) ==> CalledSince(s0, s, Quote(loaded.row.id, default))
    requires loaded.attempts[0].txId == loaded.row.id
    ensures OfferOver(gas, db, loaded.attempts[0].id, Saved(db, NextAttempt(gas, default, loaded)), s0, s)
  {
    var top, a := loaded.attempts[0], Saved(db, NextAttempt(gas, default, loaded));
    BumpIsLeastSufficient(gas, default, top.price, a.price);
    if top.state != InsufficientEth {
      assert CalledSince(s0, s, Quote(a.txId, default));
    }
  }

  lemma NextIsBid(gas: GasConfig, db: Db, attempt: Attempt, limit: int, db': Db, s0: seq<Call>, s: seq<Call>)
    requires Applies(db, SaveInProgressAttempt(attempt), db') && Stalled(db, attempt.txId, limit)
    requires Offer(gas, db, Saved(db, attempt), s0, s)
    requires forall x :: Of(db, x, attempt.txId) ==> db.attempts[x].price <= attempt.price
    ensures Bid(gas, db, db', Saved(db, attempt), s0, s)
  {
    SavingAttempt(db, attempt, db');
  }

  lemma BidSince(gas: GasConfig, db0: Db, db1: Db, db2: Db, a: Attempt, s0: seq<Call>, s1: seq<Call>, s2: seq<Call>)
    requires Frozen(db0, db1, a.txId) && Bid(gas, db1, db2, a, s1, s2) && s0 <= s1
    ensures Bid(gas, db0, db2, a, s0, s2)
  {
    OfferStays(gas, db0, db1, a, s0, s1, s2, s2);
    assert forall x :: Of(db0, x, a.txId) ==> Of(db1, x, a.txId) && db0.attempts[x] == db1.attempts[x];
  }

  lemma BidIsMade(gas: GasConfig, db0: Db, db1: Db, db2: Db, a: Attempt, s0: seq<Call>, s1: seq<Call>, s: seq<Call>)
    requires Bid(gas, db0, db1, a, s0, s1) && Kept(db0, db1, a.txId)
    requires Touched(db1, db2, a.txId) && NoneSending(db2, a.txId) && s0 <= s1 && SentSince(s1, s, a)
    ensures Rebid(gas, db0, db2, a.txId, s0, s)
  {
    StillSent(s0, s1, s, a);
    OfferStays(gas, db0, db0, a, s0, s0, s1, s);
  }

  // ---- what was due before is due when the query runs ----

  /** A transaction handed over in between has a higher nonce than all handed over before. */
  lemma NewcomersComeLast(w0: World, w1: World, t: nat, u: nat)
    requires Inv(w0) && Inv(w1) && Later(w0, w1)
    requires Handed(w0.db, t) && Handed(w1.db, t) && w1.db.txes[t] == w0.db.txes[t]
    requires Handed(w1.db, u) && !Handed(w0.db, u) && w1.db.txes[u].from == w0.db.txes[t].from
    ensures NonceKey(w1.db)(t) < NonceKey(w1.db)(u)
  {
    assert TxOk(w0, t) && TxOk(w1, t) && TxOk(w1, u);
    var a, m, n := w0.db.txes[t].from, w0.db.txes[t].nonce.value, w1.db.txes[u].nonce.value;
    NotSpentBefore(w0, w1, a, n, u);
    EarlierEntry(w0, w1, a, m, t, n, u);
  }

  lemma NotSpentBefore(w0: World, w1: World, a: Address, n: int, u: nat)
    requires LedgersOk(w0) && Later(w0, w1) && Handed(w1.db, u) && !Handed(w0.db, u)
    ensures !Spent(w0.ledgers, a, n, u)
  {
    assert In(w0.db, u, FatalError) ==> In(w1.db, u, FatalError);
  }

  lemma EarlierEntry(w0: World, w1: World, a: Address, m: int, t: nat, n: int, u: nat)
    requires Later(w0, w1) && Spent(w0.ledgers, a, m, t) && Spent(w1.ledgers, a, n, u)
    ensures n <= m ==> Spent(w0.ledgers, a, n, u)
  {
  }

  /** The query finds at least what it would have found before, as far as it was left alone. */
  lemma StillFound(w0: World, w1: World, a: Address, blockHeight: int, threshold: int, depth: int, t: nat)
    requires Inv(w0) && Inv(w1) && Later(w0, w1)
    requires forall u :: Handed(w0.db, u) && w0.db.txes[u].from == a ==> Kept(w0.db, w1.db, u)
    requires t in RequiringNewAttempt(w0.db, a, blockHeight, threshold, depth)
    requires Kept(w0.db, w1.db, t) && SameAttempts(w0.db, w1.db, t)
    ensures t in RequiringNewAttempt(w1.db, a, blockHeight, threshold, depth)
  {
    RequiringNewAttemptMeans(w0, a, blockHeight, threshold, depth, t);
    RequiringNewAttemptMeans(w1, a, blockHeight, threshold, depth, t);
    assert Handed(w0.db, t);
    StillStalled(w0.db, w1.db, t, blockHeight - threshold);
    if depth > 0 {
      NoneOlder(w0, w1, a, t);
      Subset(Older(w1.db, a, t), Older(w0.db, a, t));
    }
  }

  lemma StillStalled(db: Db, db': Db, t: nat, limit: int)
    requires Stalled(db, t, limit) && SameAttempts(db, db', t)
    ensures Stalled(db', t, limit)
  {
  }

  lemma NoneOlder(w0: World, w1: World, a: Address, t: nat)
    requires Inv(w0) && Inv(w1) && Later(w0, w1)
    requires forall u :: Handed(w0.db, u) && w0.db.txes[u].from == a ==> Kept(w0.db, w1.db, u)
    requires Handed(w0.db, t) && w0.db.txes[t].from == a
    ensures Older(w1.db, a, t) <= Older(w0.db, a, t)
  {
    assert Kept(w0.db, w1.db, t);
    forall u | u in Older(w1.db, a, t)
      ensures u in Older(w0.db, a, t)
    {
      OlderWasOlder(w0, w1, a, t, u);
    }
  }

  lemma OlderWasOlder(w0: World, w1: World, a: Address, t: nat, u: nat)
    requires Inv(w0) && Inv(w1) && Later(w0, w1) && (Handed(w0.db, u) && w0.db.txes[u].from == a ==> Kept(w0.db, w1.db, u))
    requires Handed(w0.db, t) && w0.db.txes[t].from == a && Kept(w0.db, w1.db, t) && u in Older(w1.db, a, t)
    ensures u in Older(w0.db, a, t)
  {
    OlderMeans(w1.db, a, t, u);
    OlderMeans(w0.db, a, t, u);
    if Handed(w0.db, u) {
      SameKey(w0, w1, u);
    } else {
      NewcomersComeLast(w0, w1, t, u);
    }
  }

  lemma OlderMeans(db: Db, a: Address, t: nat, u: nat)
    ensures u in Older(db, a, t) <==> In(db, u, Unconfirmed) && db.txes[u].from == a && NonceKey(db)(u) < NonceKey(db)(t)
  {
  }

  lemma SameKey(w0: World, w1: World, u: nat)
    requires Later(w0, w1) && u in w0.db.txes
    ensures u in w1.db.txes && w1.db.txes[u].from == w0.db.txes[u].from
  {
  }

  function IdSet(ids: seq<nat>): set<nat> {
    set t | t in ids
  }

  lemma IdSetNext(ids: seq<nat>, i: nat)
    requires i < |ids| && forall j :: 0 <= j < i ==> ids[j] != ids[i]
    ensures IdSet(ids[..i + 1]) == IdSet(ids[..i]) + {ids[i]} && ids[i] !in IdSet(ids[..i])
  {
    assert ids[..i + 1] == ids[..i] + [ids[i]];
  }

  class GasBumping {
    const worker: KeyWork

    constructor (worker: KeyWork)
      ensures this.worker == worker
    {
      this.worker := worker;
    }

    ghost function Me(): Process {
      KeyWorker(worker.siblings)
    }

    /** One round of the loop in bumpGasWhereNecessary. */
    method BumpOne(loaded: LoadedTx, ghost limit: int) returns (r: Status)
      requires worker.store.Valid() && worker.gas.bumpWei >= 1
      requires Due(worker.store.db, loaded, limit) && Owns(Me(), worker.store.db, loaded.row.id)
      modifies worker.store
      ensures worker.store.Valid() && Onward(old(worker.store.Now()), worker.store.Now())
      ensures Reworked(Me(), {loaded.row.id}, old(worker.store.db), worker.store.db)
      ensures r.Ok? ==> Rebid(worker.gas, old(worker.store.db), worker.store.db, loaded.row.id, old(worker.store.calls), worker.store.calls)
      ensures r.Failed? ==> ResendFailure(worker.gas, r.why, old(worker.store.Now()), worker.store.Now())
    {
      ghost var before := worker.store.Now();
      var attempt;
      r, attempt := SaveNextLater(loaded, limit);
      if r.Ok? {
        ghost var saved := worker.store.Now();
        r := SendBid(attempt, before.world.db, before.calls);
        if r.Failed? {
          ResendFailureSince(worker.gas, r.why, before, saved, worker.store.Now());
        }
      }
    }

    /** The next attempt is saved after others may have run. */
    method SaveNextLater(loaded: LoadedTx, ghost limit: int) returns (r: Status, attempt: Attempt)
      requires worker.store.Valid() && worker.gas.bumpWei >= 1
      requires Due(worker.store.db, loaded, limit) && Owns(Me(), worker.store.db, loaded.row.id)
      modifies worker.store
      ensures worker.store.Valid() && Onward(old(worker.store.Now()), worker.store.Now())
      ensures Reworked(Me(), {loaded.row.id}, old(worker.store.db), worker.store.db)
      ensures r.Ok? ==> worker.Assigned(worker.store.db, attempt) && attempt.txId == loaded.row.id
      ensures r.Ok? ==> Bid(worker.gas, old(worker.store.db), worker.store.db, attempt, old(worker.store.calls), worker.store.calls)
      ensures r.Failed? ==> ResendFailure(worker.gas, r.why, old(worker.store.Now()), worker.store.Now())
    {
      ghost var before := worker.store.Now();
      worker.store.Interleave(Me());
      ghost var later := worker.store.Now();
      StaysDue(before.world.db, later.world.db, loaded, limit);
      r, attempt := SaveNext(loaded, limit);
      RelyThenRework(loaded.row.id, before.world.db, later.world.db, worker.store.db);
      if r.Ok? {
        BidSince(worker.gas, before.world.db, later.world.db, worker.store.db, attempt, before.calls, later.calls, worker.store.calls);
      } else {
        ResendFailureSince(worker.gas, r.why, before, later, worker.store.Now());
      }
    }

    /** It is sent; db0 and s0 are from before it was saved. */
    method SendBid(attempt: Attempt, ghost db0: Db, ghost s0: seq<Call>) returns (r: Status)
      requires worker.store.Valid() && worker.gas.bumpWei >= 1 && worker.Assigned(worker.store.db, attempt)
      requires Reworked(Me(), {attempt.txId}, db0, worker.store.db) && Owns(Me(), db0, attempt.txId)
      requires s0 <= worker.store.calls && Bid(worker.gas, db0, worker.store.db, attempt, s0, worker.store.calls)
      modifies worker.store
      ensures worker.store.Valid() && Onward(old(worker.store.Now()), worker.store.Now())
      ensures Reworked(Me(), {attempt.txId}, db0, worker.store.db)
      ensures r.Ok? ==> Rebid(worker.gas, db0, worker.store.db, attempt.txId, s0, worker.store.calls)
      ensures r.Failed? ==> ResendFailure(worker.gas, r.why, old(worker.store.Now()), worker.store.Now())
    {
      ghost var saved := worker.store.Now();
      ghost var xs, quotes;
      r, xs, quotes := worker.HandleInProgressAttempt(attempt);
      ReworkThenWork(attempt.txId, db0, saved.world.db, worker.store.db);
      if r.Ok? {
        BidIsMade(worker.gas, db0, saved.world.db, worker.store.db, attempt, s0, saved.calls, worker.store.calls);
      } else {
        FailedToResend(worker.gas, attempt, xs, quotes, r.why, saved, worker.store.Now());
      }
    }

    lemma ReworkThenWork(t: nat, db0: Db, db1: Db, db2: Db)
      requires Reworked(Me(), {t}, db0, db1) && Worked(Me(), {t}, db1, db2) && Owns(Me(), db0, t)
      ensures Reworked(Me(), {t}, db0, db2)
    {
      WorkedIsReworked(Me(), {t}, db1, db2);
      ReworkedIsTransitive(Me(), {t}, {t}, db0, db1, db2);
      assert {t} + {t} == {t};
    }

    lemma RelyThenRework(t: nat, db0: Db, db1: Db, db2: Db)
      requires Rely(Me(), db0, db1) && Reworked(Me(), {t}, db1, db2) && Owns(Me(), db0, t)
      ensures Reworked(Me(), {t}, db0, db2)
    {
      RelyIsWorked(Me(), db0, db1);
      WorkedIsReworked(Me(), {}, db0, db1);
      ReworkedIsTransitive(Me(), {}, {t}, db0, db1, db2);
      assert {} + {t} == {t};
    }

    /** newAttemptWithGasBump and saveInProgressAttempt. */
    method SaveNext(loaded: LoadedTx, ghost limit: int) returns (r: Status, attempt: Attempt)
      requires worker.store.Valid() && worker.gas.bumpWei >= 1
      requires Due(worker.store.db, loaded, limit) && Owns(Me(), worker.store.db, loaded.row.id)
      modifies worker.store
      ensures worker.store.Valid() && Onward(old(worker.store.Now()), worker.store.Now())
      ensures Reworked(Me(), {loaded.row.id}, old(worker.store.db), worker.store.db)
      ensures r.Ok? ==> worker.Assigned(worker.store.db, attempt) && attempt.txId == loaded.row.id
      ensures r.Ok? ==> Bid(worker.gas, old(worker.store.db), worker.store.db, attempt, old(worker.store.calls), worker.store.calls)
      ensures r.Failed? ==> ResendFailure(worker.gas, r.why, old(worker.store.Now()), worker.store.Now())
    {
      ghost var db := worker.store.db;
      OwnNothing(db, loaded.row.id);
      var default;
      r, attempt, default := NewAttemptWithGasBump(loaded, limit);
      if r.Ok? {
        Prepared(default, loaded, limit);
        r, attempt := SavePrepared(attempt, limit, old(worker.store.calls));
      }
    }

    /** newAttemptWithGasBump; its only error is that of the key store. */
    method NewAttemptWithGasBump(loaded: LoadedTx, ghost limit: int) returns (r: Status, next: Attempt, default: int)
      requires worker.store.Valid() && worker.gas.bumpWei >= 1 && Due(worker.store.db, loaded, limit)
      modifies worker.store`calls
      ensures worker.store.Valid() && old(worker.store.calls) <= worker.store.calls
      ensures next == NextAttempt(worker.gas, default, loaded)
      ensures Offer(worker.gas, worker.store.db, Saved(worker.store.db, next), old(worker.store.calls), worker.store.calls)
      ensures r.Failed? ==> ResendFailure(worker.gas, r.why, old(worker.store.Now()), worker.store.Now())
    {
      ghost var s0 := worker.store.calls;
      r, default := Ok, 0;
      if NeedsQuote(loaded) {
        default := worker.store.DefaultPrice(loaded.row.id);
        assert worker.store.calls[|s0|] == Quote(loaded.row.id, default);
      }
      next := NextAttempt(worker.gas, default, loaded);
      ghost var s1 := worker.store.calls;
      assert Offer(worker.gas, worker.store.db, Saved(worker.store.db, next), s0, s1) by {
        worker.store.InvHolds();
        NextIsOffered(worker.gas, default, worker.store.db, loaded, limit, s0, s1);
      }
      if next.id == 0 {
        var signed := worker.store.Sign(loaded.row.id);
        OfferStays(worker.gas, worker.store.db, worker.store.db, Saved(worker.store.db, next), s0, s0, s1, worker.store.calls);
        if !signed {
          r := Failed(KeyStoreFailure);
        }
      }
    }

    /** saveInProgressAttempt, for the attempt that was made since s0. */
    method SavePrepared(next: Attempt, ghost limit: int, ghost s0: seq<Call>) returns (r: Status, attempt: Attempt)
      requires worker.store.Valid() && Disciplined(worker.store.db, SaveInProgressAttempt(next)) && next.state == Sending
      requires Owns(Me(), worker.store.db, next.txId) && Stalled(worker.store.db, next.txId, limit)
      requires forall x :: Of(worker.store.db, x, next.txId) ==> worker.store.db.attempts[x].price <= next.price
      requires Offer(worker.gas, worker.store.db, Saved(worker.store.db, next), s0, worker.store.calls)
      modifies worker.store
      ensures worker.store.Valid() && Onward(old(worker.store.Now()), worker.store.Now()) && worker.store.calls == old(worker.store.calls)
      ensures Reworked(Me(), {next.txId}, old(worker.store.db), worker.store.db)
      ensures r.Ok? ==> worker.Assigned(worker.store.db, attempt) && attempt.txId == next.txId
      ensures r.Ok? ==> Bid(worker.gas, old(worker.store.db), worker.store.db, attempt, s0, worker.store.calls)
      ensures r.Failed? ==> ResendFailure(worker.gas, r.why, old(worker.store.Now()), worker.store.Now())
    {
      ghost var before := worker.store.db;
      r, attempt := SaveAttempt(next);
      if r.Ok? {
        NextIsBid(worker.gas, before, next, limit, worker.store.db, s0, worker.store.calls);
      }
    }

    /** The id of a new attempt is the one the database gave it. */
    method SaveAttempt(next: Attempt) returns (r: Status, attempt: Attempt)
      requires worker.store.Valid() && Disciplined(worker.store.db, SaveInProgressAttempt(next)) && next.state == Sending
      requires Owns(Me(), worker.store.db, next.txId)
      modifies worker.store
      ensures worker.store.Valid() && Onward(old(worker.store.Now()), worker.store.Now()) && worker.store.calls == old(worker.store.calls)
      ensures Reworked(Me(), {next.txId}, old(worker.store.db), worker.store.db)
      ensures r.Ok? ==> Applies(old(worker.store.db), SaveInProgressAttempt(next), worker.store.db)
      ensures r.Ok? ==> worker.Assigned(worker.store.db, attempt) && attempt == Saved(old(worker.store.db), next)
      ensures OnlyUnreachable(r, old(worker.store.outages), worker.store.outages)
    {
      ghost var before := worker.store.db;
      OwnNothing(before, next.txId);
      attempt := next;
      r := worker.store.Transact(Me(), SaveInProgressAttempt(next));
      if r.Ok? {
        SavingAttempt(before, next, worker.store.db);
        OwnRework(Me(), before, SaveInProgressAttempt(next), worker.store.db, next.txId);
        attempt := if next.id == 0 then next.(id := worker.store.db.attemptSeq - 1) else next;
      }
    }

    lemma OwnNothing(db: Db, t: nat)
      ensures Reworked(Me(), {t}, db, db)
    {
    }

    lemma Prepared(default: int, loaded: LoadedTx, limit: int)
      requires worker.store.Valid() && worker.gas.bumpWei >= 1 && Due(worker.store.db, loaded, limit)
      ensures var db, next := worker.store.db, NextAttempt(worker.gas, default, loaded);
              && Disciplined(db, SaveInProgressAttempt(next)) && next.txId == loaded.row.id && next.state == Sending
              && (forall x :: Of(db, x, next.txId) ==> db.attempts[x].price <= next.price)
    {
      worker.store.InvHolds();
      assert TxOk(worker.store.world, loaded.row.id);
      NextAttemptIsDearest(worker.gas, default, worker.store.db, loaded, limit);
      if loaded.attempts != [] {
        TopIsDearest(worker.store.db, loaded.row.id);
      }
    }

    // ---- bumpGasWhereNecessary ----

    /** All of done were resent or outbid, and everything else is as it was. */
    ghost predicate Rebids(done: seq<nat>, db: Db, db': Db, s0: seq<Call>, s: seq<Call>) {
      && s0 <= s && Reworked(Me(), IdSet(done), db, db')
      && forall t :: t in done ==> Rebid(worker.gas, db, db', t, s0, s)
    }

    lemma RebidSince(db0: Db, db1: Db, db2: Db, t: nat, s0: seq<Call>, s1: seq<Call>, s2: seq<Call>)
      requires Kept(db0, db1, t) && SameAttempts(db0, db1, t) && Rebid(worker.gas, db1, db2, t, s1, s2) && s0 <= s1 <= s2
      ensures Rebid(worker.gas, db0, db2, t, s0, s2)
    {
      NextStaysSent(worker.gas, db0, db1, t, s0, s1, s2, s2);
      CheaperWereKept(db0, db1, db2, t);
    }

    lemma RebidsOneMore(done: seq<nat>, t: nat, db0: Db, db1: Db, db2: Db, s0: seq<Call>, s1: seq<Call>, s2: seq<Call>)
      requires Rebids(done, db0, db1, s0, s1) && Reworked(Me(), {t}, db1, db2) && Rebid(worker.gas, db1, db2, t, s1, s2) && s1 <= s2
      requires t !in done && Owns(Me(), db0, t) && OwnsAll(done, db0)
      ensures Rebids(done + [t], db0, db2, s0, s2)
    {
      ReworkedIsTransitive(Me(), IdSet(done), {t}, db0, db1, db2);
      assert IdSet(done + [t]) == IdSet(done) + {t};
      RebidSince(db0, db1, db2, t, s0, s1, s2);
      forall u | u in done
        ensures Rebid(worker.gas, db0, db2, u, s0, s2)
      {
        RebidStays(worker.gas, db0, db1, db2, u, s0, s1, s2);
      }
    }

    /** The query returns transactions of this worker, each once. */
    lemma FoundAreDue(w: World, from: Address, blockHeight: int, threshold: int, depth: int)
      requires Inv(w) && from !in worker.siblings && (depth > 0 || worker.siblings == {})
      ensures var found := RequiringNewAttempt(w.db, from, blockHeight, threshold, depth);
              && (forall t :: t in found ==> Owns(Me(), w.db, t) && Due(w.db, Load(w.db, t), blockHeight - threshold))
              && (forall i, j :: 0 <= i < j < |found| ==> found[i] != found[j])
    {
      var found := RequiringNewAttempt(w.db, from, blockHeight, threshold, depth);
      forall t | t in found
        ensures Owns(Me(), w.db, t) && Due(w.db, Load(w.db, t), blockHeight - threshold)
      {
        RequiringNewAttemptMeans(w, from, blockHeight, threshold, depth, t);
      }
      RequiringNewAttemptInNonceOrder(w.db, from, blockHeight, threshold, depth);
    }

    lemma NothingLeft(a: Address, done: seq<nat>, db: Db, db': Db, s0: seq<Call>, s: seq<Call>)
      requires worker.NoneUnfinished(db, a) && Rebids(done, db, db', s0, s)
      ensures worker.NoneUnfinished(db', a)
    {
      forall t | Owns(Me(), db', t) && db'.txes[t].from == a
        ensures NoneSending(db', t)
      {
        if Owns(Me(), db, t) {
          if t !in done {
            assert Frozen(db, db', t);
          }
        } else {
          assert Newcomer(Me(), db', t);
        }
      }
    }

    lemma NothingLeftByOthers(db: Db, db': Db)
      requires Rely(Me(), db, db')
      ensures forall a :: worker.NoneUnfinished(db, a) ==> worker.NoneUnfinished(db', a)
    {
      forall a, t | worker.NoneUnfinished(db, a) && Owns(Me(), db', t) && db'.txes[t].from == a
        ensures NoneSending(db', t)
      {
        if Owns(Me(), db, t) {
          assert Frozen(db, db', t);
        } else {
          assert Newcomer(Me(), db', t);
        }
      }
    }

    lemma NothingLeftElsewhere(from: Address, db: Db, db': Db)
      requires worker.KeyFrame(from, db, db')
      ensures forall a :: a != from && worker.NoneUnfinished(db, a) ==> worker.NoneUnfinished(db', a)
    {
      forall a, t | a != from && worker.NoneUnfinished(db, a) && Owns(Me(), db', t) && db'.txes[t].from == a
        ensures NoneSending(db', t)
      {
        if Owns(Me(), db, t) {
          assert Frozen(db, db', t);
        } else {
          assert Newcomer(Me(), db', t);
        }
      }
    }

    /** Finishing what was being sent leaves a stalled transaction alone. */
    lemma StalledStays(from: Address, db: Db, db': Db, t: nat, limit: int)
      requires worker.KeyFrame(from, db, db') && Owns(Me(), db, t) && Stalled(db, t, limit)
      ensures Kept(db, db', t) && SameAttempts(db, db', t)
    {
      assert NoneSending(db, t);
      if db.txes[t].from != from {
        assert Frozen(db, db', t);
      } else {
        assert Touched(db, db', t);
      }
    }

    lemma FoundBefore(from: Address, blockHeight: int, threshold: int, depth: int, w0: World, w1: World, t: nat)
      requires from !in worker.siblings && (depth > 0 || worker.siblings == {})
      requires Inv(w0) && Inv(w1) && Later(w0, w1) && worker.KeyFrame(from, w0.db, w1.db)
      requires t in RequiringNewAttempt(w0.db, from, blockHeight, threshold, depth)
      ensures t in RequiringNewAttempt(w1.db, from, blockHeight, threshold, depth) && Kept(w0.db, w1.db, t) && SameAttempts(w0.db, w1.db, t)
    {
      RequiringNewAttemptMeans(w0, from, blockHeight, threshold, depth, t);
      StalledStays(from, w0.db, w1.db, t, blockHeight - threshold);
      forall u | Handed(w0.db, u) && w0.db.txes[u].from == from
        ensures Kept(w0.db, w1.db, u)
      {
        assert Owns(Me(), w0.db, u);
      }
      StillFound(w0, w1, from, blockHeight, threshold, depth, t);
    }

    lemma RebidSinceBefore(from: Address, blockHeight: int, threshold: int, depth: int, l0: seq<Transaction>, w0: World,
                           l1: seq<Transaction>, w1: World, db2: Db, s0: seq<Call>, s1: seq<Call>, s2: seq<Call>)
      requires from !in worker.siblings && (depth > 0 || worker.siblings == {}) && s0 <= s1
      requires worker.store.Was(l0, w0) && worker.store.Was(l1, w1) && l0 <= l1 && worker.KeyFrame(from, w0.db, w1.db)
      requires forall t :: t in RequiringNewAttempt(w1.db, from, blockHeight, threshold, depth) ==> Rebid(worker.gas, w1.db, db2, t, s1, s2)
      ensures forall t :: t in RequiringNewAttempt(w0.db, from, blockHeight, threshold, depth) ==> Rebid(worker.gas, w0.db, db2, t, s0, s2)
    {
      forall t | t in RequiringNewAttempt(w0.db, from, blockHeight, threshold, depth)
        ensures Rebid(worker.gas, w0.db, db2, t, s0, s2)
      {
        assert t in RequiringNewAttempt(w1.db, from, blockHeight, threshold, depth) && Kept(w0.db, w1.db, t) && SameAttempts(w0.db, w1.db, t) by {
          worker.store.WasLater(l0, w0, l1, w1);
          FoundBefore(from, blockHeight, threshold, depth, w0, w1, t);
        }
        RebidSince(w0.db, w1.db, db2, t, s0, s1, s2);
      }
    }

    /** bumpGasWhereNecessary: a nil return means that nothing of this key is left unsent, and that
        every transaction the query found, among them all it would have found on entry, was resent or
        outbid. queried is what the tables were when the log was l, and the query was run. */
    method BumpGasWhereNecessary(from: Address, blockHeight: int, threshold: int, depth: int)
      returns (r: Status, ghost l: seq<Transaction>, ghost queried: World, ghost sentBefore: seq<Call>)
      requires worker.store.Valid() && worker.gas.bumpWei >= 1
      requires from !in worker.siblings && (depth > 0 || worker.siblings == {})
      modifies worker.store
      ensures worker.store.Valid() && Onward(old(worker.store.Now()), worker.store.Now())
      ensures old(worker.store.log) <= l <= worker.store.log && worker.store.Was(l, queried)
      ensures Reworked(Me(), IdSet(RequiringNewAttempt(queried.db, from, blockHeight, threshold, depth)), queried.db, worker.store.db)
      ensures worker.KeyFrame(from, old(worker.store.db), queried.db)
      ensures old(worker.store.calls) <= sentBefore <= worker.store.calls
      ensures r.Ok? ==> forall t :: t in RequiringNewAttempt(queried.db, from, blockHeight, threshold, depth) ==>
                          Rebid(worker.gas, queried.db, worker.store.db, t, sentBefore, worker.store.calls)
      ensures r.Ok? ==> forall t :: t in RequiringNewAttempt(old(worker.store.db), from, blockHeight, threshold, depth) ==>
                          Rebid(worker.gas, old(worker.store.db), worker.store.db, t, old(worker.store.calls), worker.store.calls)
      ensures r.Ok? ==> worker.NoneUnfinished(worker.store.db, from)
      ensures r.Ok? ==> forall a :: worker.NoneUnfinished(old(worker.store.db), a) ==> worker.NoneUnfinished(worker.store.db, a)
      ensures r.Failed? ==> ResendFailure(worker.gas, r.why, old(worker.store.Now()), worker.store.Now())
    {
      ghost var before := worker.store.Now();
      r := worker.HandleAnyInProgressAttempts(from);
      ghost var db1 := worker.store.db;
      NothingLeftElsewhere(from, before.world.db, db1);
      if r.Ok? {
        worker.store.Interleave(Me());
        NothingLeftByOthers(db1, worker.store.db);
        worker.KeyFrameThenRely(from, before.world.db, db1, worker.store.db);
      }
      ghost var now := worker.store.Now();
      l, queried, sentBefore := now.log, now.world, now.calls;
      ghost var found := RequiringNewAttempt(queried.db, from, blockHeight, threshold, depth);
      ReworksNothing(IdSet(found), queried.db);
      if r.Ok? {
        r := BumpAll(from, blockHeight, threshold, depth);
        if r.Ok? {
          NothingLeftByBumping(found, queried.db, worker.store.db, sentBefore, worker.store.calls);
          RebidSinceBefore(from, blockHeight, threshold, depth, before.log, before.world, l, queried,
                           worker.store.db, before.calls, sentBefore, worker.store.calls);
        } else {
          ResendFailureSince(worker.gas, r.why, before, now, worker.store.Now());
        }
      }
    }

    lemma NothingLeftByBumping(done: seq<nat>, db: Db, db': Db, s0: seq<Call>, s: seq<Call>)
      requires Rebids(done, db, db', s0, s)
      ensures forall a :: worker.NoneUnfinished(db, a) ==> worker.NoneUnfinished(db', a)
    {
      forall a | worker.NoneUnfinished(db, a)
        ensures worker.NoneUnfinished(db', a)
      {
        NothingLeft(a, done, db, db', s0, s);
      }
    }

    lemma ReworksNothing(busy: set<nat>, db: Db)
      ensures Reworked(Me(), busy, db, db)
    {
    }

    method BumpAll(from: Address, blockHeight: int, threshold: int, depth: int) returns (r: Status)
      requires worker.store.Valid() && worker.gas.bumpWei >= 1
      requires from !in worker.siblings && (depth > 0 || worker.siblings == {})
      modifies worker.store
      ensures worker.store.Valid() && Onward(old(worker.store.Now()), worker.store.Now())
      ensures var found := RequiringNewAttempt(old(worker.store.db), from, blockHeight, threshold, depth);
              && Reworked(Me(), IdSet(found), old(worker.store.db), worker.store.db)
              && (r.Ok? ==> Rebids(found, old(worker.store.db), worker.store.db, old(worker.store.calls), worker.store.calls))
      ensures r.Failed? ==> ResendFailure(worker.gas, r.why, old(worker.store.Now()), worker.store.Now())
    {
      r := worker.store.Reach();
      var found := RequiringNewAttempt(worker.store.db, from, blockHeight, threshold, depth);
      ReworksNothing(IdSet(found), worker.store.db);
      if !r.Ok? {
        return;
      }
      ghost var reached := worker.store.Now();
      assert Listed(found, worker.store.db, blockHeight - threshold) by {
        worker.store.InvHolds();
        FoundAreListed(worker.store.world, from, blockHeight, threshold, depth);
      }
      r := BumpEach(found, blockHeight - threshold);
      if r.Failed? {
        ResendFailureSince(worker.gas, r.why, old(worker.store.Now()), reached, worker.store.Now());
      }
    }

    lemma FoundAreListed(w: World, from: Address, blockHeight: int, threshold: int, depth: int)
      requires Inv(w) && from !in worker.siblings && (depth > 0 || worker.siblings == {})
      ensures Listed(RequiringNewAttempt(w.db, from, blockHeight, threshold, depth), w.db, blockHeight - threshold)
    {
      FoundAreDue(w, from, blockHeight, threshold, depth);
      RowsAreListed(w.db, RequiringNewAttempt(w.db, from, blockHeight, threshold, depth), blockHeight - threshold);
    }

    lemma RowsAreListed(db: Db, found: seq<nat>, limit: int)
      requires Shape(db) && forall t :: t in found ==> Owns(Me(), db, t) && Due(db, Load(db, t), limit)
      requires forall i, j :: 0 <= i < j < |found| ==> found[i] != found[j]
      ensures Listed(found, db, limit)
    {
      assert forall i :: 0 <= i < |found| ==> found[i] in found;
    }

    /** The rows the query found: all due, all of this worker, each once. */
    ghost predicate Listed(found: seq<nat>, db: Db, limit: int) {
      && (forall i :: 0 <= i < |found| ==> Owns(Me(), db, found[i]) && db.txes[found[i]].id == found[i] && Due(db, Load(db, found[i]), limit))
      && (forall i, j :: 0 <= i < j < |found| ==> found[i] != found[j])
    }

    /** The loop of bumpGasWhereNecessary. */
    method BumpEach(found: seq<nat>, ghost limit: int) returns (r: Status)
      requires worker.store.Valid() && worker.gas.bumpWei >= 1 && Listed(found, worker.store.db, limit)
      modifies worker.store
      ensures worker.store.Valid() && Onward(old(worker.store.Now()), worker.store.Now())
      ensures Reworked(Me(), IdSet(found), old(worker.store.db), worker.store.db)
      ensures r.Ok? ==> Rebids(found, old(worker.store.db), worker.store.db, old(worker.store.calls), worker.store.calls)
      ensures r.Failed? ==> ResendFailure(worker.gas, r.why, old(worker.store.Now()), worker.store.Now())
    {
      ghost var before := worker.store.Now();
      var db := worker.store.db;
      NothingRebid(found, db, worker.store.calls);
      r := Ok;
      for i := 0 to |found|
        invariant worker.store.Valid() && Onward(before, worker.store.Now()) && r.Ok?
        invariant Rebids(found[..i], db, worker.store.db, before.calls, worker.store.calls)
      {
        ghost var now := worker.store.Now();
        r := BumpNext(found, i, db, limit, before.calls);
        if !r.Ok? {
          ResendFailureSince(worker.gas, r.why, before, now, worker.store.Now());
          ReworkedWidens(IdSet(found[..i + 1]), IdSet(found), db, worker.store.db);
          return;
        }
      }
      assert found[..|found|] == found;
    }

    lemma NothingRebid(found: seq<nat>, db: Db, sent: seq<Call>)
      ensures Rebids(found[..0], db, db, sent, sent)
    {
    }

    lemma ReworkedWidens(busy: set<nat>, more: set<nat>, db: Db, db': Db)
      requires Reworked(Me(), busy, db, db') && busy <= more
      ensures Reworked(Me(), more, db, db')
    {
    }

    method BumpNext(found: seq<nat>, i: nat, db: Db, ghost limit: int, ghost s0: seq<Call>) returns (r: Status)
      requires worker.store.Valid() && worker.gas.bumpWei >= 1 && i < |found| && Listed(found, db, limit)
      requires Rebids(found[..i], db, worker.store.db, s0, worker.store.calls)
      modifies worker.store
      ensures worker.store.Valid() && Onward(old(worker.store.Now()), worker.store.Now())
      ensures Reworked(Me(), IdSet(found[..i + 1]), db, worker.store.db)
      ensures r.Ok? ==> Rebids(found[..i + 1], db, worker.store.db, s0, worker.store.calls)
      ensures r.Failed? ==> ResendFailure(worker.gas, r.why, old(worker.store.Now()), worker.store.Now())
    {
      var loaded := Load(db, found[i]);
      ghost var db1, s1 := worker.store.db, worker.store.calls;
      StillDue(found, i, db, limit, db1);
      r := BumpOne(loaded, limit);
      ReworkedNext(found, i, db, limit, db1, worker.store.db);
      if r.Ok? {
        OwnsFound(found, i, db, limit);
        RebidNext(found, i, db, db1, worker.store.db, s0, s1, worker.store.calls);
      }
    }

    lemma StillDue(found: seq<nat>, i: nat, db: Db, limit: int, db1: Db)
      requires i < |found| && Listed(found, db, limit) && Reworked(Me(), IdSet(found[..i]), db, db1)
      ensures Due(db1, Load(db, found[i]), limit) && Owns(Me(), db1, found[i])
    {
      assert found[i] !in IdSet(found[..i]) && Frozen(db, db1, found[i]);
      StaysDue(db, db1, Load(db, found[i]), limit);
    }

    lemma ReworkedNext(found: seq<nat>, i: nat, db0: Db, limit: int, db1: Db, db2: Db)
      requires i < |found| && Listed(found, db0, limit)
      requires Reworked(Me(), IdSet(found[..i]), db0, db1) && Reworked(Me(), {found[i]}, db1, db2)
      ensures Reworked(Me(), IdSet(found[..i + 1]), db0, db2)
    {
      ReworkedIsTransitive(Me(), IdSet(found[..i]), {found[i]}, db0, db1, db2);
      IdSetNext(found, i);
    }

    lemma OwnsFound(found: seq<nat>, i: nat, db: Db, limit: int)
      requires i < |found| && Listed(found, db, limit)
      ensures found[i] !in found[..i] && Owns(Me(), db, found[i]) && OwnsAll(found[..i], db)
    {
    }

    ghost predicate OwnsAll(ids: seq<nat>, db: Db) {
      forall u :: u in ids ==> Owns(Me(), db, u)
    }

    lemma RebidNext(found: seq<nat>, i: nat, db0: Db, db1: Db, db2: Db, s0: seq<Call>, s1: seq<Call>, s2: seq<Call>)
      requires i < |found| && found[i] !in found[..i] && Owns(Me(), db0, found[i]) && OwnsAll(found[..i], db0) && s1 <= s2
      requires Rebids(found[..i], db0, db1, s0, s1) && Reworked(Me(), {found[i]}, db1, db2) && Rebid(worker.gas, db1, db2, found[i], s1, s2)
      ensures Rebids(found[..i + 1], db0, db2, s0, s2)
    {
      RebidsOneMore(found[..i], found[i], db0, db1, db2, s0, s1, s2);
      assert found[..i + 1] == found[..i] + [found[i]];
    }
  }
}
