/** The confirmer's SQL, and what it selects. */
module ConfirmerQueries {
  import opened Options
  import opened Ordering
  import opened TxTables
  import opened TxTransactions
  import opened TxInvariant

  // ---- FindEthTxsRequiringNewAttempt ----

  /** The ON condition of the LEFT JOIN. A comparison with NULL is unknown, so it does not hold. */
  predicate JoinsOn(attempt: Attempt, t: nat, limit: int) {
    && attempt.txId == t
    && attempt.state != InsufficientEth
    && ((attempt.stamp.Some? && attempt.stamp.value > limit) || attempt.stamp.None? || attempt.state != Broadcast)
  }

  /** eth_txes LEFT JOIN eth_tx_attempts: a row without a match is kept once, with a NULL attempt. */
  function LeftJoin(db: Db, limit: int): set<(nat, Option<nat>)> {
    (set t, x | t in db.txes && x in db.attempts && JoinsOn(db.attempts[x], t, limit) :: (t, Some(x)))
    + (set t | t in db.txes && (forall x :: x in db.attempts ==> !JoinsOn(db.attempts[x], t, limit)) :: (t, None))
  }

  function UnconfirmedOf(db: Db, a: Address): set<nat> {
    set t | t in db.txes && db.txes[t].state == Unconfirmed && db.txes[t].from == a
  }

  function RequiringNewAttempt(db: Db, a: Address, blockNum: int, threshold: int, depth: int): seq<nat> {
    var joined := LeftJoin(db, blockNum - threshold);
    var rows := set t | t in db.txes && db.txes[t].state == Unconfirmed && (t, None) in joined;
    if depth > 0 then
      var oldest := Limit(SortBy(UnconfirmedOf(db, a), NonceKey(db)), depth);
      var kept := set t | t in rows && t in oldest;
      SortBy(kept, NonceKey(db))
    else SortBy(rows, NonceKey(db))
  }

  /** Nothing is under way for t, and nothing was sent too recently. */
  ghost predicate Stalled(db: Db, t: nat, limit: int) {
    forall x :: Of(db, x, t) ==>
      var attempt := db.attempts[x];
      attempt.state == InsufficientEth
      || (attempt.state == Broadcast && attempt.stamp.Some? && attempt.stamp.value <= limit)
  }

  lemma AntiJoinIsStalled(db: Db, t: nat, limit: int)
    requires t in db.txes
    ensures (t, None) in LeftJoin(db, limit) <==> Stalled(db, t, limit)
  {
    if Stalled(db, t, limit) {
      forall x | x in db.attempts
        ensures !JoinsOn(db.attempts[x], t, limit)
      {
        assert db.attempts[x].txId == t ==> Of(db, x, t);
      }
    }
    if (t, None) in LeftJoin(db, limit) {
      assert forall x :: x in db.attempts ==> !JoinsOn(db.attempts[x], t, limit);
    }
  }

  /** The unconfirmed transactions of address a with a lower nonce than t. */
  function Older(db: Db, a: Address, t: nat): set<nat> {
    set u | u in UnconfirmedOf(db, a) && NonceKey(db)(u) < NonceKey(db)(t)
  }

  ghost predicate DistinctNonces(db: Db, a: Address) {
    forall t, u :: t in UnconfirmedOf(db, a) && u in UnconfirmedOf(db, a) && t != u ==> NonceKey(db)(t) != NonceKey(db)(u)
  }

  lemma OlderPrecede(db: Db, a: Address, t: nat)
    requires DistinctNonces(db, a) && t in UnconfirmedOf(db, a)
    ensures Preceding(UnconfirmedOf(db, a), NonceKey(db), t) == Older(db, a, t)
  {
    forall u | u in UnconfirmedOf(db, a)
      ensures Before(NonceKey(db), u, t) <==> NonceKey(db)(u) < NonceKey(db)(t)
    {
    }
  }

  lemma FoundIff(db: Db, a: Address, blockNum: int, threshold: int, depth: int, t: nat)
    ensures t in RequiringNewAttempt(db, a, blockNum, threshold, depth) <==>
            && In(db, t, Unconfirmed) && (t, None) in LeftJoin(db, blockNum - threshold)
            && (depth > 0 ==> t in Limit(SortBy(UnconfirmedOf(db, a), NonceKey(db)), depth))
  {
  }

  lemma FoundMeans(db: Db, a: Address, blockNum: int, threshold: int, depth: int, t: nat)
    requires DistinctNonces(db, a)
    ensures t in RequiringNewAttempt(db, a, blockNum, threshold, depth) <==>
            && In(db, t, Unconfirmed) && Stalled(db, t, blockNum - threshold)
            && (depth > 0 ==> db.txes[t].from == a && |Older(db, a, t)| < depth)
  {
    FoundIff(db, a, blockNum, threshold, depth, t);
    if In(db, t, Unconfirmed) {
      AntiJoinIsStalled(db, t, blockNum - threshold);
      if depth > 0 {
        LimitByRank(UnconfirmedOf(db, a), NonceKey(db), depth, t);
        if t in UnconfirmedOf(db, a) {
          OlderPrecede(db, a, t);
        }
      }
    }
  }

  /** With a depth, the query returns the stalled ones among the address's depth oldest unconfirmed
      transactions; without, every stalled unconfirmed one of any address. */
  lemma RequiringNewAttemptMeans(w: World, a: Address, blockNum: int, threshold: int, depth: int, t: nat)
    requires Inv(w)
    ensures t in RequiringNewAttempt(w.db, a, blockNum, threshold, depth) <==>
            && In(w.db, t, Unconfirmed) && Stalled(w.db, t, blockNum - threshold)
            && (depth > 0 ==> w.db.txes[t].from == a && |Older(w.db, a, t)| < depth)
  {
    forall u, v | u in UnconfirmedOf(w.db, a) && v in UnconfirmedOf(w.db, a) && u != v
      ensures NonceKey(w.db)(u) != NonceKey(w.db)(v)
    {
      NoncesDiffer(w, u, v);
    }
    FoundMeans(w.db, a, blockNum, threshold, depth, t);
  }

  lemma NoncesDiffer(w: World, t: nat, u: nat)
    requires Inv(w) && In(w.db, t, Unconfirmed) && In(w.db, u, Unconfirmed) && w.db.txes[t].from == w.db.txes[u].from && t != u
    ensures w.db.txes[t].nonce.Some? && w.db.txes[u].nonce.Some? && w.db.txes[t].nonce != w.db.txes[u].nonce
  {
    assert TxOk(w, t) && TxOk(w, u);
  }

  lemma RequiringNewAttemptInNonceOrder(db: Db, a: Address, blockNum: int, threshold: int, depth: int)
    ensures var found := RequiringNewAttempt(db, a, blockNum, threshold, depth);
            forall i, j :: 0 <= i < j < |found| ==> found[i] != found[j] && NonceKey(db)(found[i]) <= NonceKey(db)(found[j])
  {
  }

  // ---- markOldTxesMissingReceiptAsErrored ----

  ghost predicate Expires(db: Db, cutoff: int, t: nat) {
    In(db, t, ConfirmedMissingReceipt) && In(Execute(db, MarkOldErrored(cutoff)).db, t, FatalError)
  }

  /** The stamps of t's attempts, as a column. */
  lemma StampsOf(db: Db, t: nat)
    ensures forall x :: Of(db, x, t) ==> db.attempts[x].stamp in Column(AttemptsOf(db, t))
    ensures forall s :: s in Column(AttemptsOf(db, t)) ==> exists x :: Of(db, x, t) && db.attempts[x].stamp == s
  {
    var attempts := AttemptsOf(db, t);
    var stamps := Column(attempts);
    AttemptsOfIsComplete(db, t);
    forall x | Of(db, x, t)
      ensures db.attempts[x].stamp in stamps
    {
      var i :| 0 <= i < |attempts| && attempts[i] == db.attempts[x];
      assert stamps[i] == db.attempts[x].stamp;
    }
    forall s | s in stamps
      ensures exists x :: Of(db, x, t) && db.attempts[x].stamp == s
    {
      var i :| 0 <= i < |stamps| && stamps[i] == s;
      assert attempts[i] in attempts;
    }
  }

  lemma LatestStampBeforeIff(db: Db, t: nat, cutoff: int)
    ensures LatestStampBefore(db, t, cutoff) <==>
            && (exists x :: Of(db, x, t) && db.attempts[x].stamp.Some?)
            && (forall x :: Of(db, x, t) && db.attempts[x].stamp.Some? ==> db.attempts[x].stamp.value < cutoff)
  {
    var stamps := Column(AttemptsOf(db, t));
    StampsOf(db, t);
    SqlMaxIsMaximum(stamps);
    if SqlMax(stamps).Some? {
      var x :| Of(db, x, t) && db.attempts[x].stamp == SqlMax(stamps);
    }
  }

  /** What "expired" really means: some attempt is stamped, and every stamp is below the cutoff. */
  lemma ExpiresIff(db: Db, cutoff: int, t: nat)
    ensures Execute(db, MarkOldErrored(cutoff)).Committed?
    ensures Expires(db, cutoff, t) <==>
            && In(db, t, ConfirmedMissingReceipt)
            && (exists x :: Of(db, x, t) && db.attempts[x].stamp.Some?)
            && (forall x :: Of(db, x, t) && db.attempts[x].stamp.Some? ==> db.attempts[x].stamp.value < cutoff)
  {
    LatestStampBeforeIff(db, t, cutoff);
    assert Expires(db, cutoff, t) <==> In(db, t, ConfirmedMissingReceipt) && LatestStampBefore(db, t, cutoff);
  }

  /** Every broadcast attempt of t is stamped once any of them is. */
  ghost predicate Stamped(db: Db, t: nat) {
    forall x, y :: Of(db, x, t) && Of(db, y, t) && db.attempts[x].stamp.Some? && db.attempts[y].state == Broadcast ==>
      db.attempts[y].stamp.Some?
  }

  /** Expiry safety: a transaction expires only when all its broadcast attempts predate the cutoff. */
  lemma ExpiryIsSafe(db: Db, cutoff: int, t: nat)
    requires Stamped(db, t) && Expires(db, cutoff, t)
    ensures forall x :: Of(db, x, t) && db.attempts[x].state == Broadcast ==>
              db.attempts[x].stamp.Some? && db.attempts[x].stamp.value < cutoff
  {
    ExpiresIff(db, cutoff, t);
    var y :| Of(db, y, t) && db.attempts[y].stamp.Some?;
  }

  /** The stronger promise, that all attempts were broadcast before the cutoff, holds of an expired
      transaction exactly when it has no unstamped attempt. */
  lemma AllAttemptsBuriedIff(db: Db, cutoff: int, t: nat)
    requires Expires(db, cutoff, t)
    ensures (forall x :: Of(db, x, t) ==> db.attempts[x].stamp.Some? && db.attempts[x].stamp.value < cutoff)
            <==> (forall x :: Of(db, x, t) ==> db.attempts[x].stamp.Some?)
  {
    ExpiresIff(db, cutoff, t);
  }

  // ---- findTransactionsConfirmedAtOrAboveBlockHeight ----

  /** One result row: an eth_tx joined to a broadcast attempt and a receipt of it. */
  predicate ConfirmedRow(db: Db, t: nat, r: Receipt, height: int) {
    && t in db.txes && (db.txes[t].state == Confirmed || db.txes[t].state == ConfirmedMissingReceipt)
    && r in db.receipts && Of(db, r.attempt, t) && db.attempts[r.attempt].state == Broadcast
    && r.blockNumber >= height
  }

  function ConfirmedAtOrAbove(db: Db, height: int): seq<nat> {
    var rows := set t, r | t in db.txes && r in db.receipts && ConfirmedRow(db, t, r, height) :: t;
    SortBy(rows, NonceKey(db))
  }

  /** The join yields one row per receipt, and that is one row per transaction; all of them confirmed. */
  lemma ConfirmedRowsAreDistinct(w: World, t: nat, r: Receipt, s: Receipt, height: int)
    requires Inv(w) && ConfirmedRow(w.db, t, r, height) && ConfirmedRow(w.db, t, s, height)
    ensures r == s && In(w.db, t, Confirmed)
  {
    assert TxOk(w, t);
  }
}
