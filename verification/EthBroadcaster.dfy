/** core/services/bulletprooftxmanager/eth_broadcaster.go, next to any number of other processes. */
module EthBroadcaster {
  import opened Options
  import opened GasPrice
  import opened TxTables
  import opened TxTransactions
  import opened TxInvariant
  import opened TxInterference
  import opened TxStore

  ghost predicate Idle(db: Db, from: Address) {
    forall t :: In(db, t, InProgress) ==> db.txes[t].from != from
  }

  /** The in-memory copies of the in_progress transaction and its attempt are those of the tables,
      but for BroadcastAt, which the code sets early. */
  ghost predicate Current(db: Db, etx: EthTx, attempt: Attempt) {
    && In(db, etx.id, InProgress) && etx == db.txes[etx.id].(broadcastAt := etx.broadcastAt)
    && IsRow(db, attempt) && attempt.txId == etx.id
  }

  datatype Found = Nothing | One(etx: EthTx, attempt: Attempt) | Inconsistent

  /** getInProgressEthTx, with its "exactly one unsent attempt" guard. */
  function GetInProgress(db: Db, from: Address): Found {
    match InProgressTx(db, from)
    case None => Nothing
    case Some(t) =>
      var attempts := AttemptsOf(db, t);
      if t !in db.txes || |attempts| != 1 || attempts[0].state != Sending then Inconsistent
      else One(db.txes[t], attempts[0])
  }

  /** The guard never fires, and nothing in progress is overlooked. */
  lemma GetInProgressIsConsistent(w: World, from: Address)
    requires Inv(w)
    ensures match GetInProgress(w.db, from)
            case Nothing => Idle(w.db, from)
            case One(etx, attempt) => Current(w.db, etx, attempt) && etx.from == from && attempt.state == Sending
            case Inconsistent => false
  {
    InProgressTxIsFirst(w.db, from);
    if InProgressTx(w.db, from).Some? {
      var t := InProgressTx(w.db, from).value;
      assert TxOk(w, t);
      SoleAttempt(w.db, t);
    }
  }

  lemma InProgressTxIsFirst(db: Db, from: Address)
    ensures match InProgressTx(db, from)
            case None => Idle(db, from)
            case Some(t) => In(db, t, InProgress) && db.txes[t].from == from
  {
    var rows := set t | t in db.txes && db.txes[t].state == InProgress && db.txes[t].from == from;
    if rows == {} {
      forall t | In(db, t, InProgress)
        ensures db.txes[t].from != from
      {
        assert t !in rows;
      }
    } else {
      assert InProgressTx(db, from).value in rows;
    }
  }

  lemma SoleAttempt(db: Db, t: nat)
    requires Shape(db) && In(db, t, InProgress) && StageOk(db, t)
    ensures |AttemptsOf(db, t)| == 1
    ensures var a := AttemptsOf(db, t)[0]; IsRow(db, a) && a.txId == t && a.state == Sending
  {
    var x: nat :| Of(db, x, t);
    assert forall y :: y in AttemptIds(db, t) ==> Of(db, y, t);
    assert AttemptIds(db, t) == {x};
    AttemptsOfIsComplete(db, t);
    assert |AttemptsOf(db, t)| == |AttemptIds(db, t)|;
    TopIsDearest(db, t);
  }

  /** An in_progress transaction of mine stays mine and unchanged while the others run. */
  lemma StaysCurrent(db: Db, db': Db, etx: EthTx, attempt: Attempt)
    requires Rely(Broadcaster(etx.from), db, db') && Current(db, etx, attempt)
    ensures Current(db', etx, attempt)
  {
    assert Owns(Broadcaster(etx.from), db, etx.id) && Frozen(db, db', etx.id) && Of(db, attempt.id, etx.id);
  }

  lemma StaysIdle(db: Db, db': Db, from: Address)
    requires Rely(Broadcaster(from), db, db') && Idle(db, from)
    ensures Idle(db', from)
  {
    forall t | In(db', t, InProgress)
      ensures db'.txes[t].from != from
    {
      assert db'.txes[t].from == from ==> Owns(Broadcaster(from), db', t);
      assert Owns(Broadcaster(from), db', t) ==> Owns(Broadcaster(from), db, t) || Newcomer(Broadcaster(from), db', t);
      assert Owns(Broadcaster(from), db, t) ==> Frozen(db, db', t) && In(db, t, InProgress);
    }
  }

  lemma FinishingMakesIdle(db: Db, txn: Transaction, db': Db, etx: EthTx)
    requires OneInProgress(db) && Applies(db, txn, db') && In(db, etx.id, InProgress) && db.txes[etx.id].from == etx.from
    requires (txn.SaveUnconfirmed? || txn.SaveFatallyErrored?) && txn.etx.id == etx.id
    ensures Idle(db', etx.from) && UnstartedOf(db', etx.from) == UnstartedOf(db, etx.from)
  {
    EndsInProgress(db, txn, db');
    forall t: nat
      ensures In(db', t, InProgress) ==> t != etx.id && In(db, t, InProgress) && db'.txes[t].from == db.txes[t].from
      ensures t in UnstartedOf(db', etx.from) <==> t in UnstartedOf(db, etx.from)
    {
      FinishingStartsNone(db, txn, db', t);
    }
  }

  lemma FinishingStartsNone(db: Db, txn: Transaction, db': Db, t: nat)
    requires Applies(db, txn, db') && (txn.SaveUnconfirmed? || txn.SaveFatallyErrored?)
    ensures In(db', t, InProgress) ==> In(db, t, InProgress) && db'.txes[t].from == db.txes[t].from
    ensures In(db', t, Unstarted) <==> In(db, t, Unstarted)
    ensures In(db, t, Unstarted) ==> db'.txes[t].from == db.txes[t].from
  {
    RowsFollowStateMachine(db, txn, db', t);
  }

  lemma EndsInProgress(db: Db, txn: Transaction, db': Db)
    requires Applies(db, txn, db') && (txn.SaveUnconfirmed? || txn.SaveFatallyErrored?)
    ensures txn.etx.id in db'.txes && Departed(db'.txes[txn.etx.id].state)
  {
  }

  lemma StartingTakesOne(db: Db, txn: Transaction, db': Db)
    requires Applies(db, txn, db') && txn.SaveInProgressTx?
    ensures UnstartedOf(db', txn.etx.from) == UnstartedOf(db, txn.etx.from) - {txn.etx.id}
    ensures txn.etx.id in UnstartedOf(db, txn.etx.from)
    ensures Current(db', txn.etx.(state := InProgress), txn.attempt.(id := db.attemptSeq))
    ensures db'.attemptSeq == db.attemptSeq + 1
  {
  }

  lemma ReplacingKeepsCurrent(db: Db, etx: EthTx, attempt: Attempt, replacement: Attempt, db': Db)
    requires Current(db, etx, attempt) && Applies(db, SaveReplacement(attempt, replacement), db')
    ensures Current(db', etx, replacement.(id := db.attemptSeq)) && UnstartedOf(db', etx.from) == UnstartedOf(db, etx.from)
    ensures db'.attemptSeq == db.attemptSeq + 1
  {
  }

  /** saveUnconfirmed or saveFatallyErrored closed the transaction as the node's answer asks, with
      the attempt that got that answer or with the error in it. */
  predicate Concluded(txn: Transaction, etx: EthTx, initialBroadcastAt: int, x: Exchange) {
    var answer := Classified(x.raw);
    if Accepted(answer) then txn == SaveUnconfirmed(etx.(broadcastAt := Some(initialBroadcastAt)), x.attempt)
    else answer.value.fatal && txn == SaveFatallyErrored(etx.(error := Some(answer.value.message)))
  }

  /** The answers after which the transaction counts as sent. */
  predicate Accepted(answer: Option<SendError>) {
    answer.None?
    || (!answer.value.fatal
        && (answer.value.nonceTooLow || answer.value.replacementUnderpriced
            || (answer.value.temporarilyUnderpriced && !answer.value.terminallyUnderpriced)))
  }

  /** The answers after which the attempt is replaced by a dearer one. */
  predicate AsksForReplacement(answer: Option<SendError>) {
    answer.Some? && answer.value.terminallyUnderpriced
    && !answer.value.fatal && !answer.value.nonceTooLow && !answer.value.replacementUnderpriced
  }

  /** The answers that are neither of these nor fatal: the transaction is left for the next poll. */
  predicate LeavesOpen(answer: Option<SendError>) {
    answer.Some? && !Accepted(answer) && !answer.value.fatal && !answer.value.terminallyUnderpriced
  }

  /** What sendTransaction's callers make of the node's raw answer. */
  lemma AnswersInFlags(raw: Option<SendError>)
    ensures Accepted(Classified(raw)) <==>
              || raw.None? || raw.value.alreadyInMempool
              || (!raw.value.fatal
                  && (raw.value.nonceTooLow || raw.value.replacementUnderpriced
                      || (raw.value.temporarilyUnderpriced && !raw.value.terminallyUnderpriced)))
    ensures AsksForReplacement(Classified(raw)) <==>
              && raw.Some? && !raw.value.alreadyInMempool && raw.value.terminallyUnderpriced
              && !raw.value.fatal && !raw.value.nonceTooLow && !raw.value.replacementUnderpriced
    ensures LeavesOpen(Classified(raw)) <==>
              && raw.Some? && !raw.value.alreadyInMempool && !raw.value.fatal && !raw.value.nonceTooLow
              && !raw.value.replacementUnderpriced && !raw.value.terminallyUnderpriced && !raw.value.temporarilyUnderpriced
  {
  }

  /** How handleInProgressEthTx ends, after the exchanges xs about the transaction. */
  ghost predicate HandledInProgressTx(gas: GasConfig, etx: EthTx, attempt: Attempt, initialBroadcastAt: int, xs: seq<Exchange>,
                                      quotes: seq<int>, r: Status, before: Moment, after: Moment)
  {
    && Heard(etx.id, xs, quotes, before, after) && Conversation(gas, xs, quotes, attempt, AsksForReplacement)
    && BroadcastEnded(gas, etx, initialBroadcastAt, xs[|xs| - 1], |xs| > 1, InVain(xs, quotes), r, before, after)
  }

  /** How it ends after the last of them, which may be about a replacement, and the quote of a bump that
      led to no further one. */
  ghost predicate BroadcastEnded(gas: GasConfig, etx: EthTx, initialBroadcastAt: int, x: Exchange, replaced: bool, quote: Option<int>,
                                 r: Status, before: Moment, after: Moment)
  {
    var answer, db := Classified(x.raw), after.world.db;
    match r
    case Ok =>
      && quote.None? && Ends(after.calls, Sent(x)) && Idle(db, etx.from)
      && after.log != [] && Concluded(after.log[|after.log| - 1], etx, initialBroadcastAt, x)
      && (etx.broadcastAt.Some? ==> Accepted(answer))
    case Failed(why) =>
      In(db, etx.id, InProgress) && db.txes[etx.id].from == etx.from &&
      match why
      case DbFailure => before.outages < after.outages
      case NodeFailure => quote.None? && Ends(after.calls, Sent(x)) && LeavesOpen(answer)
      case Rejected(cause) =>
        quote.None? && Ends(after.calls, Sent(x)) && cause == CheckViolation
        && if Accepted(answer) then initialBroadcastAt <= EARLIEST_BROADCAST
           else answer.value.fatal && (etx.broadcastAt.Some? || replaced || answer.value.message == "")
      case KeyStoreFailure =>
        quote.Some? && AsksForReplacement(answer) && Ends(after.calls, Signature(etx.id, false))
      case BumpFailure =>
        && quote.Some? && AsksForReplacement(answer) && EndsInTwo(after.calls, Sent(x), Quote(etx.id, quote.value))
        && NoneWithinLimit(gas, quote.value, x.attempt.price)
  }

  /** The conversation about a replacement carries on the one that asked for it. */
  lemma BroadcastGoesOn(gas: GasConfig, etx: EthTx, attempt: Attempt, x: Exchange, quote: int, replacement: Attempt, initialBroadcastAt: int,
                        xs: seq<Exchange>, quotes: seq<int>, r: Status, before: Moment, now: Moment, middle: Moment, after: Moment)
    requires HandledInProgressTx(gas, etx, replacement, initialBroadcastAt, xs, quotes, r, middle, after)
    requires x.attempt == attempt && AsksForReplacement(Classified(x.raw)) && Raised(gas, quote, attempt.price, replacement.price)
    requires Heard(etx.id, [x], [], before, now) && Requoted(etx.id, quote, 1, now, middle)
    ensures HandledInProgressTx(gas, etx, attempt, initialBroadcastAt, [x] + xs, [quote] + quotes, r, before, after)
  {
    HeardMore(etx.id, x, quote, xs, quotes, before, now, middle, after);
    LongerConversation(gas, x, attempt, quote, xs, quotes, replacement, AsksForReplacement);
  }

  lemma AskedInVain(gas: GasConfig, etx: EthTx, attempt: Attempt, initialBroadcastAt: int, x: Exchange, quote: int, why: Problem,
                    before: Moment, now: Moment, after: Moment)
    requires Heard(etx.id, [x], [], before, now) && Ends(now.calls, Sent(x)) && x.attempt == attempt && AsksForReplacement(Classified(x.raw))
    requires Requoted(etx.id, quote, 0, now, after) && NoDearer(gas, etx.id, attempt.price, quote, why, now, after)
    requires In(after.world.db, etx.id, InProgress) && after.world.db.txes[etx.id].from == etx.from
    ensures HandledInProgressTx(gas, etx, attempt, initialBroadcastAt, [x], [quote], Failed(why), before, after)
  {
    HeardAndRequoted(etx.id, x, quote, before, now, after);
  }

  /** An already known transaction is handed over, unless that cannot be saved. */
  lemma AlreadyKnownIsHandedOver(gas: GasConfig, etx: EthTx, attempt: Attempt, initialBroadcastAt: int, xs: seq<Exchange>,
                                 quotes: seq<int>, r: Status, before: Moment, after: Moment)
    requires HandledInProgressTx(gas, etx, attempt, initialBroadcastAt, xs, quotes, r, before, after)
    requires xs[|xs| - 1].raw.Some? && xs[|xs| - 1].raw.value.alreadyInMempool
    ensures if r.Ok? then
              after.log != []
              && after.log[|after.log| - 1] == SaveUnconfirmed(etx.(broadcastAt := Some(initialBroadcastAt)), xs[|xs| - 1].attempt)
            else
              || (r.why.DbFailure? && before.outages < after.outages)
              || (r.why == Rejected(CheckViolation) && initialBroadcastAt <= EARLIEST_BROADCAST)
  {
    AnswersInFlags(xs[|xs| - 1].raw);
  }

  // ---- why the broadcaster of an address can fail ----

  /** The time t was first sent at, as far as the program knows: read then, or when t was created. */
  ghost predicate TimeOfSending(before: Moment, after: Moment, t: nat, at: int) {
    CalledSince(before.calls, after.calls, Clock(t, at)) || (t in after.world.db.txes && after.world.db.txes[t].createdAt == at)
  }

  /** Every failure has its cause on record: the database, or the last that was said to the outside. */
  ghost predicate BroadcastFailure(gas: GasConfig, from: Address, why: Problem, before: Moment, after: Moment) {
    var calls, db := after.calls, after.world.db;
    if why.DbFailure? then before.outages < after.outages
    else
      && before.calls < calls
      && match calls[|calls| - 1]
         case NonceRequest(a, nonce) => why.NodeFailure? && a == from && nonce.None?
         case Signature(t, signed) => why.KeyStoreFailure? && FromOf(db, t) == from && !signed
         case Quote(t, default) =>
           && why.BumpFailure? && FromOf(db, t) == from && |before.calls| + 2 <= |calls| && calls[|calls| - 2].Sent?
           && var x := calls[|calls| - 2].x;
              && x.attempt.txId == t && AsksForReplacement(Classified(x.raw)) && NoneWithinLimit(gas, default, x.attempt.price)
         case Sent(x) =>
           && FromOf(db, x.attempt.txId) == from
           && (if why.NodeFailure? then LeavesOpen(Classified(x.raw))
               else
                 && why == Rejected(CheckViolation)
                 && if Accepted(Classified(x.raw)) then exists at :: TimeOfSending(before, after, x.attempt.txId, at) && at <= EARLIEST_BROADCAST
                    else Classified(x.raw).value.fatal)
         case _ => false
  }

  lemma FailureSince(gas: GasConfig, from: Address, why: Problem, earlier: Moment, before: Moment, after: Moment)
    requires BroadcastFailure(gas, from, why, before, after) && Onward(earlier, before)
    ensures BroadcastFailure(gas, from, why, earlier, after)
  {
    if !why.DbFailure? && after.calls[|after.calls| - 1].Sent? {
      var t := after.calls[|after.calls| - 1].x.attempt.txId;
      forall at | TimeOfSending(before, after, t, at)
        ensures TimeOfSending(earlier, after, t, at)
      {
        if CalledSince(before.calls, after.calls, Clock(t, at)) {
          StillCalled(earlier.calls, before.calls, after.calls, Clock(t, at));
        }
      }
    }
  }

  lemma FailedToHandle(gas: GasConfig, etx: EthTx, attempt: Attempt, initialBroadcastAt: int, xs: seq<Exchange>,
                       quotes: seq<int>, why: Problem, before: Moment, after: Moment)
    requires HandledInProgressTx(gas, etx, attempt, initialBroadcastAt, xs, quotes, Failed(why), before, after)
    requires xs[|xs| - 1].attempt.txId == etx.id && TimeOfSending(before, after, etx.id, initialBroadcastAt)
    ensures BroadcastFailure(gas, etx.from, why, before, after)
  {
  }

  /** Nothing that concerns the address went wrong since. */
  ghost predicate AllWell(from: Address, before: Moment, after: Moment) {
    && before.outages == after.outages
    && (forall i :: |before.calls| <= i < |after.calls| ==> Well(from, after.world.db, after.calls[i]))
    && (forall t :: t in after.world.db.txes && after.world.db.txes[t].from == from ==> after.world.db.txes[t].createdAt > EARLIEST_BROADCAST)
  }

  ghost predicate Well(from: Address, db: Db, c: Call) {
    match c
    case Sent(x) => FromOf(db, x.attempt.txId) == from ==> Accepted(Classified(x.raw))
    case Signature(t, signed) => FromOf(db, t) == from ==> signed
    case NonceRequest(a, nonce) => a == from ==> nonce.Some?
    case Clock(_, now) => now > EARLIEST_BROADCAST
    case Quote(_, _) => true
  }

  lemma NothingWrongMeansOk(gas: GasConfig, from: Address, r: Status, before: Moment, after: Moment)
    requires r.Failed? ==> BroadcastFailure(gas, from, r.why, before, after)
    requires AllWell(from, before, after)
    ensures r.Ok?
  {
    forall why
      ensures !BroadcastFailure(gas, from, why, before, after)
    {
      var n := |after.calls|;
      assert |before.calls| < n ==> Well(from, after.world.db, after.calls[n - 1]);
      assert |before.calls| + 2 <= n ==> Well(from, after.world.db, after.calls[n - 2]);
    }
  }

  class Broadcasting {
    const store: Store
    const gas: GasConfig
    const from: Address

    constructor (store: Store, gas: GasConfig, from: Address)
      ensures this.store == store && this.gas == gas && this.from == from
    {
      this.store, this.gas, this.from := store, gas, from;
    }

    /** The work that can still show up for this address. */
    ghost function Backlog(): nat
      reads store
    {
      store.arrivals + |UnstartedOf(store.db, from)|
    }

    /** handleInProgressEthTx. xs is all that was sent and answered about the transaction meanwhile, and
        quotes the default gas prices read for it. */
    method HandleInProgressEthTx(etx: EthTx, attempt: Attempt, initialBroadcastAt: int)
      returns (r: Status, ghost xs: seq<Exchange>, ghost quotes: seq<int>)
      requires store.Valid() && gas.bumpWei >= 1
      requires Current(store.db, etx, attempt) && etx.from == from && attempt.state == Sending
      modifies store
      ensures store.Valid() && Onward(old(store.Now()), store.Now()) && Backlog() <= old(Backlog())
      ensures HandledInProgressTx(gas, etx, attempt, initialBroadcastAt, xs, quotes, r, old(store.Now()), store.Now())
      decreases Headroom(gas, attempt.price), 2
    {
      var answer;
      ghost var x;
      ghost var before := store.Now();
      answer, x := Send(etx, attempt);
      r, xs, quotes := SettleAnswer(etx, attempt, initialBroadcastAt, answer, x, before);
    }

    /** What is known when the answer to attempt has come in. */
    ghost predicate Answered(etx: EthTx, attempt: Attempt, answer: Option<SendError>, x: Exchange, before: Moment, now: Moment) {
      && Onward(before, now) && before.outages == now.outages && Heard(etx.id, [x], [], before, now) && Ends(now.calls, Sent(x))
      && x.attempt == attempt && answer == Classified(x.raw)
    }

    /** sendTransaction, for the in_progress transaction, which stays as it is. */
    method Send(etx: EthTx, attempt: Attempt) returns (answer: Option<SendError>, ghost x: Exchange)
      requires store.Valid() && Current(store.db, etx, attempt) && etx.from == from
      modifies store
      ensures store.Valid() && Backlog() <= old(Backlog()) && Current(store.db, etx, attempt)
      ensures Answered(etx, attempt, answer, x, old(store.Now()), store.Now())
    {
      assert Owns(Broadcaster(from), store.db, etx.id);
      answer := store.SendTransaction(Broadcaster(from), attempt);
      x := store.calls[|store.calls| - 1].x;
      StaysCurrent(old(store.db), store.db, etx, attempt);
    }

    /** The rest of handleInProgressEthTx: what becomes of the transaction, given the node's answer. */
    method SettleAnswer(etx: EthTx, attempt: Attempt, initialBroadcastAt: int, answer: Option<SendError>, ghost x: Exchange, ghost before: Moment)
      returns (r: Status, ghost xs: seq<Exchange>, ghost quotes: seq<int>)
      requires store.Valid() && gas.bumpWei >= 1
      requires Current(store.db, etx, attempt) && etx.from == from && attempt.state == Sending
      requires Answered(etx, attempt, answer, x, before, store.Now())
      modifies store
      ensures store.Valid() && Onward(old(store.Now()), store.Now()) && Backlog() <= old(Backlog())
      ensures HandledInProgressTx(gas, etx, attempt, initialBroadcastAt, xs, quotes, r, before, store.Now())
      decreases Headroom(gas, attempt.price), 1
    {
      xs, quotes := [x], [];
      var sendError := answer;
      if sendError.Some? && sendError.value.fatal {
        r := SaveFatally(etx, attempt, sendError.value.message);
        return;
      }
      var sending := etx.(broadcastAt := Some(initialBroadcastAt));
      if sendError.Some? && (sendError.value.nonceTooLow || sendError.value.replacementUnderpriced) {
        sendError := None;
      }
      if sendError.Some? && sendError.value.terminallyUnderpriced {
        r, xs, quotes := TryAgainWithHigherGasPrice(sending, attempt, initialBroadcastAt, x, before);
        return;
      }
      if sendError.Some? && sendError.value.temporarilyUnderpriced {
        sendError := None;
      }
      if sendError.Some? {
        r := Failed(NodeFailure);
        return;
      }
      r := SaveAsUnconfirmed(sending, attempt);
    }

    /** tryAgainWithHigherGasPrice: success takes a dearer attempt and another answer. */
    method TryAgainWithHigherGasPrice(etx: EthTx, attempt: Attempt, initialBroadcastAt: int, ghost x: Exchange, ghost before: Moment)
      returns (r: Status, ghost xs: seq<Exchange>, ghost quotes: seq<int>)
      requires store.Valid() && gas.bumpWei >= 1
      requires Current(store.db, etx, attempt) && etx.from == from && attempt.state == Sending && etx.broadcastAt.Some?
      requires Answered(etx, attempt, Classified(x.raw), x, before, store.Now()) && AsksForReplacement(Classified(x.raw))
      modifies store
      ensures store.Valid() && Onward(old(store.Now()), store.Now()) && Backlog() <= old(Backlog())
      ensures HandledInProgressTx(gas, etx, attempt, initialBroadcastAt, xs, quotes, r, before, store.Now())
      ensures quotes != [] && (r.Ok? ==> |xs| > 1)
      decreases Headroom(gas, attempt.price), 0
    {
      ghost var now := store.Now();
      var replacement;
      ghost var quote;
      r, replacement, quote := SaveDearer(etx, attempt);
      xs, quotes := [x], [quote];
      if !r.Ok? {
        AskedInVain(gas, etx, attempt, initialBroadcastAt, x, quote, r.why, before, now, store.Now());
        return;
      }
      ghost var middle := store.Now();
      ghost var more, further;
      r, more, further := HandleInProgressEthTx(etx, replacement, initialBroadcastAt);
      BroadcastGoesOn(gas, etx, attempt, x, quote, replacement, initialBroadcastAt, more, further, r, before, now, middle, store.Now());
      xs, quotes := [x] + more, [quote] + further;
    }

    /** The replacement, at the price a bump makes with the default price read then. */
    method SaveDearer(etx: EthTx, attempt: Attempt) returns (r: Status, replacement: Attempt, ghost quote: int)
      requires store.Valid() && gas.bumpWei >= 1
      requires Current(store.db, etx, attempt) && etx.from == from && attempt.state == Sending
      modifies store
      ensures store.Valid() && Onward(old(store.Now()), store.Now()) && Backlog() <= old(Backlog())
      ensures Requoted(etx.id, quote, if r.Ok? then 1 else 0, old(store.Now()), store.Now())
      ensures r.Ok? ==> Current(store.db, etx, replacement) && replacement.state == Sending
      ensures r.Ok? ==> Raised(gas, quote, attempt.price, replacement.price)
                        && attempt.price < replacement.price && Headroom(gas, replacement.price) < Headroom(gas, attempt.price)
      ensures r.Failed? ==> In(store.db, etx.id, InProgress) && store.db.txes[etx.id].from == from
      ensures r.Failed? ==> NoDearer(gas, etx.id, attempt.price, quote, r.why, old(store.Now()), store.Now())
    {
      replacement := attempt;
      var higher;
      r, higher, quote := store.DearerOffer(gas, etx.id, attempt.price);
      if r.Ok? {
        // The "bump ceiling" case: a successful bump never leaves the price where it was.
        assert higher != attempt.price;
        r, replacement := SaveReplaced(etx, attempt, higher);
      }
    }

    /** saveReplacementInProgressAttempt. */
    method SaveReplaced(etx: EthTx, attempt: Attempt, price: int) returns (r: Status, replacement: Attempt)
      requires store.Valid() && Current(store.db, etx, attempt) && etx.from == from && attempt.state == Sending
      requires price > attempt.price
      modifies store
      ensures store.Valid() && Onward(old(store.Now()), store.Now()) && Backlog() <= old(Backlog())
      ensures store.calls == old(store.calls)
      ensures r.Ok? ==> Current(store.db, etx, replacement) && replacement.state == Sending && replacement.price == price
      ensures r.Ok? ==> Replacements(store.log, etx.id) == Replacements(old(store.log), etx.id) + 1
      ensures r.Failed? ==> r.why.DbFailure? && store.db == old(store.db) && store.log == old(store.log)
      ensures store.outages == old(store.outages) + if r.Failed? then 1 else 0
    {
      ghost var before, log1 := store.db, store.log;
      replacement := Attempt(0, etx.id, price, None, Sending);
      assert Disciplined(store.db, SaveReplacement(attempt, replacement));
      assert IssuerOf(store.db, SaveReplacement(attempt, replacement)) == ByBroadcaster(from);
      r := store.Transact(Broadcaster(from), SaveReplacement(attempt, replacement));
      if !r.Ok? {
        return;
      }
      ReplacingKeepsCurrent(before, etx, attempt, replacement, store.db);
      OneMoreCommit(log1, SaveReplacement(attempt, replacement), etx.id);
      replacement := replacement.(id := store.db.attemptSeq - 1);
    }

    method SaveAsUnconfirmed(etx: EthTx, attempt: Attempt) returns (r: Status)
      requires store.Valid() && Current(store.db, etx, attempt) && etx.from == from && etx.broadcastAt.Some?
      modifies store
      ensures store.Valid() && Onward(old(store.Now()), store.Now()) && Backlog() <= old(Backlog())
      ensures store.calls == old(store.calls) && Replacements(store.log, etx.id) == Replacements(old(store.log), etx.id)
      ensures r.Ok? ==> Idle(store.db, from) && store.log == old(store.log) + [SaveUnconfirmed(etx, attempt)]
      ensures r.Failed? ==> store.db == old(store.db)
      ensures r.Failed? ==> r.why.DbFailure? || (r.why == Rejected(CheckViolation) && etx.broadcastAt.value <= EARLIEST_BROADCAST)
      ensures store.outages == old(store.outages) + if r == Failed(DbFailure) then 1 else 0
    {
      ghost var before, log1 := store.db, store.log;
      assert OneInProgress(before) by {
        store.InvHolds();
      }
      OneMoreCommit(log1, SaveUnconfirmed(etx, attempt), etx.id);
      r := store.Transact(Broadcaster(from), SaveUnconfirmed(etx, attempt));
      if r.Ok? {
        FinishingMakesIdle(before, SaveUnconfirmed(etx, attempt), store.db, etx);
      }
    }

    /** saveFatallyErroredTransaction, on the copy that handleInProgressEthTx holds. After a bump
        that copy has BroadcastAt set, and chk_eth_txes_fsm turns it down. */
    method SaveFatally(etx: EthTx, attempt: Attempt, error: string) returns (r: Status)
      requires store.Valid() && etx.from == from && Current(store.db, etx, attempt)
      modifies store
      ensures store.Valid() && Onward(old(store.Now()), store.Now()) && Backlog() <= old(Backlog())
      ensures store.calls == old(store.calls) && Replacements(store.log, etx.id) == Replacements(old(store.log), etx.id)
      ensures r.Ok? ==> Idle(store.db, from) && store.log == old(store.log) + [SaveFatallyErrored(etx.(error := Some(error)))]
      ensures r.Failed? ==> store.db == old(store.db)
      ensures etx.broadcastAt.Some? || error == "" ==> r == Failed(Rejected(CheckViolation)) || r == Failed(DbFailure)
      ensures etx.broadcastAt.None? && error != "" ==> r.Ok? || r == Failed(DbFailure)
      ensures store.outages == old(store.outages) + if r == Failed(DbFailure) then 1 else 0
    {
      ghost var before := store.db;
      assert OneInProgress(before) by {
        store.InvHolds();
      }
      var txn := SaveFatallyErrored(etx.(error := Some(error)));
      OneMoreCommit(store.log, txn, etx.id);
      FatallyIsDisciplined(before, etx, attempt, error);
      r := store.Transact(Broadcaster(from), txn);
      if r.Ok? {
        FinishingMakesIdle(before, txn, store.db, etx);
      }
    }

    lemma FatallyIsDisciplined(db: Db, etx: EthTx, attempt: Attempt, error: string)
      requires etx.from == from && Current(db, etx, attempt)
      ensures var txn := SaveFatallyErrored(etx.(error := Some(error)));
              Disciplined(db, txn) && Mine(Broadcaster(from), IssuerOf(db, txn))
    {
    }

    /** getNextNonceWithInitialLoad. */
    method NextNonce() returns (r: Status, nonce: int)
      requires store.Valid() && from in store.db.nextNonce && Idle(store.db, from)
      modifies store
      ensures store.Valid() && Onward(old(store.Now()), store.Now()) && Idle(store.db, from)
      ensures Backlog() <= old(Backlog())
      ensures QueueStays(old(store.Now()), store.Now())
      ensures r.Ok? ==> from in store.db.nextNonce && store.db.nextNonce[from] == Some(nonce)
      ensures r.Failed? ==> BroadcastFailure(gas, from, r.why, old(store.Now()), store.Now())
    {
      nonce := 0;
      r := store.Reach();
      if !r.Ok? {
        return;
      }
      if store.db.nextNonce[from].Some? {
        return Ok, store.db.nextNonce[from].value;
      }
      r, nonce := LoadAndSaveNonce();
    }

    /** loadAndSaveNonce, for an address that is used for the first time. */
    method LoadAndSaveNonce() returns (r: Status, nonce: int)
      requires store.Valid() && from in store.db.nextNonce && store.db.nextNonce[from].None? && Idle(store.db, from)
      modifies store
      ensures store.Valid() && Onward(old(store.Now()), store.Now()) && Idle(store.db, from)
      ensures Backlog() <= old(Backlog())
      ensures QueueStays(old(store.Now()), store.Now())
      ensures r.Ok? ==> from in store.db.nextNonce && store.db.nextNonce[from] == Some(nonce)
      ensures r.Failed? ==> BroadcastFailure(gas, from, r.why, old(store.Now()), store.Now())
    {
      ghost var before := store.Now();
      var answer := LoadInitialNonce();
      if answer.None? {
        return Failed(NodeFailure), 0;
      }
      ghost var answered := store.Now();
      nonce := answer.value;
      r := store.Transact(Broadcaster(from), SaveNonce(from, nonce));
      if r.Ok? {
        SavingNonceStartsNone(answered, nonce, store.Now());
        StillUnstartedSince(before, answered, store.Now());
      }
    }

    /** loadInitialNonceFromEthClient, some time after. */
    method LoadInitialNonce() returns (answer: Option<int>)
      requires store.Valid() && from in store.db.nextNonce && store.db.nextNonce[from].None? && Idle(store.db, from)
      modifies store
      ensures store.Valid() && Onward(old(store.Now()), store.Now()) && Idle(store.db, from)
      ensures from in store.db.nextNonce && store.db.nextNonce[from].None?
      ensures Backlog() <= old(Backlog()) && store.outages == old(store.outages)
      ensures QueueStays(old(store.Now()), store.Now())
      ensures Ends(store.calls, NonceRequest(from, answer)) && |store.calls| > |old(store.calls)|
    {
      store.Interleave(Broadcaster(from));
      StaysIdle(old(store.db), store.db, from);
      UnstartedStay(old(store.db), store.db);
      answer := store.PendingNonceAt(from);
    }

    lemma SavingNonceStartsNone(before: Moment, nonce: int, after: Moment)
      requires Applies(before.world.db, SaveNonce(from, nonce), after.world.db) && after.log == before.log + [SaveNonce(from, nonce)]
      requires after.calls == before.calls
      ensures QueueStays(before, after)
    {
      forall t | t in UnstartedOf(before.world.db, from)
        ensures StillUnstarted(t, before, after)
      {
        OneMoreCommit(before.log, SaveNonce(from, nonce), t);
      }
    }

    lemma StillUnstartedSince(before: Moment, now: Moment, after: Moment)
      requires QueueStays(before, now) && QueueStays(now, after)
      ensures QueueStays(before, after)
    {
      forall t | t in UnstartedOf(before.world.db, from)
        ensures StillUnstarted(t, before, after)
      {
        assert StillUnstarted(t, before, now) && t in UnstartedOf(now.world.db, from);
      }
    }

    ghost predicate QueueStays(before: Moment, after: Moment) {
      forall t :: t in UnstartedOf(before.world.db, from) ==> StillUnstarted(t, before, after)
    }

    /** Nobody has touched or mentioned t, and it is still unstarted. */
    ghost predicate StillUnstarted(t: nat, before: Moment, after: Moment) {
      && t in before.world.db.txes && t in after.world.db.txes && after.world.db.txes[t] == before.world.db.txes[t]
      && SendsOf(after.calls, t) == SendsOf(before.calls, t) && QuotesOf(after.calls, t) == QuotesOf(before.calls, t)
      && Replacements(after.log, t) == Replacements(before.log, t)
    }

    lemma UnstartedStay(db: Db, db': Db)
      requires Rely(Broadcaster(from), db, db')
      ensures forall t :: t in UnstartedOf(db, from) ==> t in db'.txes && db'.txes[t] == db.txes[t]
      ensures from in db.nextNonce ==> from in db'.nextNonce && db'.nextNonce[from] == db.nextNonce[from]
    {
      forall t | t in UnstartedOf(db, from)
        ensures t in db'.txes && db'.txes[t] == db.txes[t]
      {
        assert Owns(Broadcaster(from), db, t) && Frozen(db, db', t);
      }
    }

    /** What a crash left in progress, if anything: the transaction and its attempt as they are in the tables. */
    ghost predicate LeftInProgress(db: Db, found: Found) {
      match found
      case Nothing => Idle(db, from)
      case One(etx, attempt) => Current(db, etx, attempt) && etx == db.txes[etx.id] && etx.from == from && attempt.state == Sending
      case Inconsistent => false
    }

    lemma LeftBefore(db: Db, db': Db, found: Found)
      requires Rely(Broadcaster(from), db, db') && LeftInProgress(db', found)
      ensures LeftInProgress(db, found)
    {
      if found.One? {
        assert Owns(Broadcaster(from), db', found.etx.id);
        assert Owns(Broadcaster(from), db, found.etx.id) && Frozen(db, db', found.etx.id);
        assert Of(db', found.attempt.id, found.etx.id);
      } else {
        forall t | In(db, t, InProgress)
          ensures db.txes[t].from != from
        {
          assert db.txes[t].from == from ==> Owns(Broadcaster(from), db, t) && Frozen(db, db', t) && In(db', t, InProgress);
        }
      }
    }

    /** getInProgressEthTx, some time after; left is what it finds if the database can be reached. */
    method FindInProgress() returns (r: Status, found: Found, ghost left: Found)
      requires store.Valid()
      modifies store
      ensures store.Valid() && Onward(old(store.Now()), store.Now()) && Backlog() <= old(Backlog())
      ensures LeftInProgress(old(store.db), left) && LeftInProgress(store.db, left) && (r.Ok? ==> found == left)
      ensures left.One? ==> SendsOf(store.calls, left.etx.id) == SendsOf(old(store.calls), left.etx.id)
                            && QuotesOf(store.calls, left.etx.id) == QuotesOf(old(store.calls), left.etx.id)
                            && Replacements(store.log, left.etx.id) == Replacements(old(store.log), left.etx.id)
      ensures if r.Ok? then store.outages == old(store.outages) else r == Failed(DbFailure) && store.outages == old(store.outages) + 1
    {
      store.Interleave(Broadcaster(from));
      left := GetInProgress(store.db, from);
      assert match left
             case Nothing => Idle(store.db, from)
             case One(etx, attempt) => Current(store.db, etx, attempt) && etx.from == from && attempt.state == Sending
             case Inconsistent => false by {
        store.InvHolds();
        GetInProgressIsConsistent(store.world, from);
      }
      LeftBefore(old(store.db), store.db, left);
      assert left.One? ==> Owns(Broadcaster(from), old(store.db), left.etx.id);
      r := store.Reach();
      found := if r.Ok? then GetInProgress(store.db, from) else Nothing;
    }

    /** handleAnyInProgressEthTx: what was in progress on entry is sent, and closed as the node's last
        answer asks. xs is all that was sent and answered about it meanwhile. */
    method HandleAnyInProgressEthTx() returns (r: Status, ghost left: Found, ghost xs: seq<Exchange>, ghost quotes: seq<int>)
      requires store.Valid() && gas.bumpWei >= 1
      modifies store
      ensures store.Valid() && Onward(old(store.Now()), store.Now()) && Backlog() <= old(Backlog())
      ensures LeftInProgress(old(store.db), left)
      ensures r.Ok? ==> Idle(store.db, from)
      ensures left.One? && (r.Ok? || xs != []) ==> Resumed(left.etx, left.attempt, xs, quotes, r, old(store.Now()), store.Now())
      ensures r.Failed? ==> BroadcastFailure(gas, from, r.why, old(store.Now()), store.Now())
    {
      var found;
      r, found, left := FindInProgress();
      xs, quotes := [], [];
      if r.Ok? && found.One? {
        ghost var before := store.Now();
        r, xs, quotes := Resume(found.etx, found.attempt);
        ResumedSince(found.etx, found.attempt, xs, quotes, r, old(store.Now()), before, store.Now());
        if r.Failed? {
          FailureSince(gas, from, r.why, old(store.Now()), before, store.Now());
        }
      }
    }

    lemma ResumedSince(etx: EthTx, attempt: Attempt, xs: seq<Exchange>, quotes: seq<int>, r: Status, earlier: Moment, before: Moment, after: Moment)
      requires Resumed(etx, attempt, xs, quotes, r, before, after) && Onward(earlier, before)
      requires SendsOf(before.calls, etx.id) == SendsOf(earlier.calls, etx.id) && QuotesOf(before.calls, etx.id) == QuotesOf(earlier.calls, etx.id)
      requires Replacements(before.log, etx.id) == Replacements(earlier.log, etx.id)
      ensures Resumed(etx, attempt, xs, quotes, r, earlier, after)
    {
      HeardSince(etx.id, xs, quotes, earlier, before, after);
    }

    method Resume(etx: EthTx, attempt: Attempt) returns (r: Status, ghost xs: seq<Exchange>, ghost quotes: seq<int>)
      requires store.Valid() && gas.bumpWei >= 1
      requires Current(store.db, etx, attempt) && etx.from == from && attempt.state == Sending && etx == store.db.txes[etx.id]
      modifies store
      ensures store.Valid() && Onward(old(store.Now()), store.Now()) && Backlog() <= old(Backlog())
      ensures Resumed(etx, attempt, xs, quotes, r, old(store.Now()), store.Now())
      ensures r.Ok? ==> Idle(store.db, from)
      ensures r.Failed? ==> BroadcastFailure(gas, from, r.why, old(store.Now()), store.Now())
    {
      ghost var before := store.Now();
      r, xs, quotes := HandleInProgressEthTx(etx, attempt, etx.createdAt);
      LastIsAbout(etx.id, xs, quotes, before, store.Now());
      if r.Failed? {
        CreatedThen(etx, before, store.Now());
        FailedToHandle(gas, etx, attempt, etx.createdAt, xs, quotes, r.why, before, store.Now());
      }
    }

    lemma CreatedThen(etx: EthTx, before: Moment, after: Moment)
      requires store.Was(before.log, before.world) && store.Was(after.log, after.world) && before.log <= after.log
      requires etx.id in before.world.db.txes && before.world.db.txes[etx.id].createdAt == etx.createdAt
      ensures TimeOfSending(before, after, etx.id, etx.createdAt)
    {
      store.WasLater(before.log, before.world, after.log, after.world);
    }

    ghost predicate Resumed(etx: EthTx, attempt: Attempt, xs: seq<Exchange>, quotes: seq<int>, r: Status, before: Moment, after: Moment) {
      HandledInProgressTx(gas, etx, attempt, etx.createdAt, xs, quotes, r, before, after)
    }

    lemma StaysReady(db: Db, db': Db, etx: EthTx)
      requires Rely(Broadcaster(from), db, db') && Ready(db, etx)
      ensures Ready(db', etx)
    {
      UnstartedStay(db, db');
    }

    /** saveInProgressTransaction. */
    method SaveInProgress(etx: EthTx, price: int) returns (r: Status, attempt: Attempt)
      requires store.Valid() && Idle(store.db, from) && Ready(store.db, etx)
      modifies store
      ensures store.Valid() && Onward(old(store.Now()), store.Now()) && store.calls == old(store.calls)
      ensures r.Ok? ==> Current(store.db, etx.(state := InProgress), attempt) && attempt.state == Sending && attempt.price == price
      ensures r.Ok? ==> Backlog() < old(Backlog()) && store.outages == old(store.outages)
      ensures Replacements(store.log, etx.id) == Replacements(old(store.log), etx.id)
      ensures r.Failed? ==> r.why.DbFailure? && store.outages == old(store.outages) + 1
    {
      attempt := Attempt(0, etx.id, price, None, Sending);
      ghost var before := store.db;
      OneMoreCommit(store.log, SaveInProgressTx(etx, attempt), etx.id);
      r := store.Transact(Broadcaster(from), SaveInProgressTx(etx, attempt));
      if !r.Ok? {
        return;
      }
      StartingTakesOne(before, SaveInProgressTx(etx, attempt), store.db);
      attempt := attempt.(id := store.db.attemptSeq - 1);
    }

    /** What is said to the outside until the first attempt is saved: the price read, and a signature. */
    ghost predicate Offered(etx: EthTx, attempt: Attempt, before: Moment, after: Moment) {
      && Onward(before, after) && |before.calls| < |after.calls| && before.outages == after.outages
      && SendsOf(after.calls, etx.id) == SendsOf(before.calls, etx.id)
      && QuotesOf(after.calls, etx.id) == QuotesOf(before.calls, etx.id) + [attempt.price]
      && Replacements(after.log, etx.id) == Replacements(before.log, etx.id)
    }

    /** newAttempt at the default price, saved some time after the row was read. */
    method Start(etx: EthTx) returns (r: Status, attempt: Attempt)
      requires store.Valid() && Idle(store.db, from) && Ready(store.db, etx)
      modifies store
      ensures store.Valid() && Onward(old(store.Now()), store.Now())
      ensures r.Ok? ==> Current(store.db, etx.(state := InProgress), attempt) && attempt.state == Sending
      ensures r.Ok? ==> Backlog() < old(Backlog()) && Offered(etx, attempt, old(store.Now()), store.Now())
      ensures r.Failed? ==> BroadcastFailure(gas, from, r.why, old(store.Now()), store.Now())
    {
      attempt := *;
      var default;
      r, default := FirstOffer(etx);
      if r.Ok? {
        StayReady(etx);
        r, attempt := SaveInProgress(etx, default);
      }
    }

    /** newAttempt: the default price, and a signature. */
    method FirstOffer(etx: EthTx) returns (r: Status, default: int)
      requires store.Valid() && Idle(store.db, from) && Ready(store.db, etx)
      modifies store`calls
      ensures store.Valid() && Requoted(etx.id, default, 0, old(store.Now()), store.Now())
      ensures r.Failed? ==> BroadcastFailure(gas, from, r.why, old(store.Now()), store.Now())
    {
      r := Ok;
      default := store.DefaultPrice(etx.id);
      var signed := store.Sign(etx.id);
      if !signed {
        r := Failed(KeyStoreFailure);
      }
    }

    /** Whatever the others do, the row and the address stay ready. */
    method StayReady(etx: EthTx)
      requires store.Valid() && Idle(store.db, from) && Ready(store.db, etx)
      modifies store
      ensures store.Valid() && Onward(old(store.Now()), store.Now()) && Idle(store.db, from) && Ready(store.db, etx)
      ensures Backlog() <= old(Backlog()) && store.outages == old(store.outages)
      ensures SendsOf(store.calls, etx.id) == SendsOf(old(store.calls), etx.id) && QuotesOf(store.calls, etx.id) == QuotesOf(old(store.calls), etx.id)
      ensures Replacements(store.log, etx.id) == Replacements(old(store.log), etx.id)
    {
      ghost var before := store.db;
      store.Interleave(Broadcaster(from));
      StaysIdle(before, store.db, from);
      StaysReady(before, store.db, etx);
      assert Owns(Broadcaster(from), before, etx.id);
    }

    /** The first sending of etx and what followed: the attempt costs the default price read for it, and
        initialBroadcastAt is the time read then. */
    ghost predicate Launched(etx: EthTx, attempt: Attempt, initialBroadcastAt: int,
                             xs: seq<Exchange>, quotes: seq<int>, before: Moment, after: Moment) {
      && Heard(etx.id, xs, [attempt.price] + quotes, before, after) && Conversation(gas, xs, quotes, attempt, AsksForReplacement)
      && BroadcastEnded(gas, etx, initialBroadcastAt, xs[|xs| - 1], |xs| > 1, InVain(xs, quotes), Ok, before, after)
      && CalledSince(before.calls, after.calls, Clock(etx.id, initialBroadcastAt))
    }

    lemma LaunchedSince(etx: EthTx, attempt: Attempt, initialBroadcastAt: int, xs: seq<Exchange>, quotes: seq<int>,
                        before: Moment, offered: Moment, timed: Moment, after: Moment)
      requires Offered(etx, attempt, before, offered) && timed == offered.(calls := offered.calls + [Clock(etx.id, initialBroadcastAt)])
      requires SendsOf(timed.calls, etx.id) == SendsOf(offered.calls, etx.id) && QuotesOf(timed.calls, etx.id) == QuotesOf(offered.calls, etx.id)
      requires HandledInProgressTx(gas, etx.(state := InProgress), attempt, initialBroadcastAt, xs, quotes, Ok, timed, after)
      requires Onward(timed, after)
      ensures Launched(etx.(state := InProgress), attempt, initialBroadcastAt, xs, quotes, before, after)
    {
      assert QuotesOf(before.calls, etx.id) + [attempt.price] + quotes == QuotesOf(before.calls, etx.id) + ([attempt.price] + quotes);
      assert timed.calls[|offered.calls|] == Clock(etx.id, initialBroadcastAt);
    }

    /** The same, and then handled. */
    method StartAndHandle(etx: EthTx)
      returns (r: Status, ghost attempt: Attempt, ghost initialBroadcastAt: int, ghost xs: seq<Exchange>, ghost quotes: seq<int>)
      requires store.Valid() && gas.bumpWei >= 1 && Idle(store.db, from) && Ready(store.db, etx)
      modifies store
      ensures store.Valid() && Onward(old(store.Now()), store.Now())
      ensures r.Ok? ==> Idle(store.db, from) && Backlog() < old(Backlog())
      ensures r.Ok? ==> Launched(etx.(state := InProgress), attempt, initialBroadcastAt, xs, quotes, old(store.Now()), store.Now())
      ensures r.Failed? ==> BroadcastFailure(gas, from, r.why, old(store.Now()), store.Now())
    {
      var first;
      ghost var before := store.Now();
      r, first := Start(etx);
      attempt, initialBroadcastAt, xs, quotes := first, 0, [], [];
      if r.Ok? {
        ghost var offered := store.Now();
        var now := store.Time(etx.id);
        initialBroadcastAt := now;
        ghost var timed := store.Now();
        r, xs, quotes := HandleInProgressEthTx(etx.(state := InProgress), first, now);
        if r.Ok? {
          LaunchedSince(etx, first, now, xs, quotes, before, offered, timed, store.Now());
        } else {
          LastIsAbout(etx.id, xs, quotes, timed, store.Now());
          LaunchFailed(etx, first, now, xs, quotes, r.why, before, offered, timed, store.Now());
        }
      }
    }

    lemma LaunchFailed(etx: EthTx, attempt: Attempt, initialBroadcastAt: int, xs: seq<Exchange>, quotes: seq<int>, why: Problem,
                       before: Moment, offered: Moment, timed: Moment, after: Moment)
      requires etx.from == from && Onward(before, offered) && timed == offered.(calls := offered.calls + [Clock(etx.id, initialBroadcastAt)])
      requires HandledInProgressTx(gas, etx.(state := InProgress), attempt, initialBroadcastAt, xs, quotes, Failed(why), timed, after)
      requires Onward(timed, after) && xs[|xs| - 1].attempt.txId == etx.id
      ensures BroadcastFailure(gas, from, why, before, after)
    {
      assert timed.calls[|offered.calls|] == Clock(etx.id, initialBroadcastAt);
      assert TimeOfSending(offered, after, etx.id, initialBroadcastAt);
      HeardSince(etx.id, xs, quotes, timed, timed, after);
      FailedAfterClock(etx, attempt, initialBroadcastAt, xs, quotes, why, offered, timed, after);
      FailureSince(gas, from, why, before, offered, after);
    }

    lemma FailedAfterClock(etx: EthTx, attempt: Attempt, initialBroadcastAt: int, xs: seq<Exchange>, quotes: seq<int>, why: Problem,
                           offered: Moment, timed: Moment, after: Moment)
      requires etx.from == from && timed == offered.(calls := offered.calls + [Clock(etx.id, initialBroadcastAt)])
      requires HandledInProgressTx(gas, etx.(state := InProgress), attempt, initialBroadcastAt, xs, quotes, Failed(why), timed, after)
      requires Onward(timed, after) && xs[|xs| - 1].attempt.txId == etx.id && TimeOfSending(offered, after, etx.id, initialBroadcastAt)
      ensures BroadcastFailure(gas, from, why, offered, after)
    {
    }

    /** queried is the moment of the query, and etx the row that was first in line then, with a nonce. */
    ghost predicate FirstInLine(queried: Moment, etx: EthTx) {
      && NextUnstarted(queried.world.db, from) == Some(etx.id) && etx.id in queried.world.db.txes
      && etx == queried.world.db.txes[etx.id].(nonce := etx.nonce)
    }

    /** nextUnstartedTransactionWithNonce. */
    method NextUnstartedWithNonce() returns (r: Status, found: bool, etx: EthTx, ghost queried: Moment)
      requires store.Valid() && Idle(store.db, from)
      modifies store
      ensures store.Valid() && Onward(old(store.Now()), queried) && Onward(queried, store.Now()) && store.Was(queried.log, queried.world)
      ensures Idle(store.db, from) && Backlog() <= old(Backlog())
      ensures r.Ok? ==> if found then FirstInLine(queried, etx) else NextUnstarted(queried.world.db, from).None?
      ensures r.Ok? && !found ==> UnstartedOf(store.db, from) == {}
      ensures r.Ok? && found ==> Ready(store.db, etx) && StillUnstarted(etx.id, queried, store.Now())
      ensures r.Failed? ==> BroadcastFailure(gas, from, r.why, old(store.Now()), store.Now())
    {
      r, found, etx := FindNextUnstarted();
      queried := store.Now();
      if !r.Ok? || !found {
        return r, false, etx, queried;
      }
      var nonce;
      r, nonce := NextNonce();
      if !r.Ok? {
        FailureSince(gas, from, r.why, old(store.Now()), queried, store.Now());
      }
      return r, true, etx.(nonce := Some(nonce)), queried;
    }

    /** findNextUnstartedTransactionFromAddress, some time after. */
    method FindNextUnstarted() returns (r: Status, found: bool, etx: EthTx)
      requires store.Valid() && Idle(store.db, from)
      modifies store
      ensures store.Valid() && Onward(old(store.Now()), store.Now()) && Idle(store.db, from) && Backlog() <= old(Backlog())
      ensures r.Ok? && !found ==> NextUnstarted(store.db, from).None? && UnstartedOf(store.db, from) == {}
      ensures r.Ok? && found ==> NextUnstarted(store.db, from) == Some(etx.id) && from in store.db.nextNonce
      ensures r.Ok? && found ==> etx.id in UnstartedOf(store.db, from) && etx == store.db.txes[etx.id]
      ensures OnlyUnreachable(r, old(store.outages), store.outages)
    {
      store.Interleave(Broadcaster(from));
      StaysIdle(old(store.db), store.db, from);
      etx := *;
      r := store.Reach();
      var next := NextUnstarted(store.db, from);
      found := next.Some?;
      if found {
        etx := store.db.txes[next.value];
        assert etx.id == next.value && etx.id in UnstartedOf(store.db, from) && from in store.db.nextNonce by {
          store.InvHolds();
        }
      }
    }

    /** etx is an unstarted row with next_nonce filled in. */
    ghost predicate Ready(db: Db, etx: EthTx) {
      && etx.id in UnstartedOf(db, from) && etx == db.txes[etx.id].(nonce := etx.nonce)
      && etx.nonce.Some? && from in db.nextNonce && db.nextNonce[from] == etx.nonce
    }

    /** One round of the loop in processUnstartedEthTxs: on nil the transaction that was first in line
        when the query ran has been sent, and closed as the node's last answer asks. */
    method ProcessNext()
      returns (r: Status, done: bool, ghost queried: Moment, ghost etx: EthTx, ghost attempt: Attempt, ghost initialBroadcastAt: int,
               ghost xs: seq<Exchange>, ghost quotes: seq<int>)
      requires store.Valid() && gas.bumpWei >= 1 && Idle(store.db, from)
      modifies store
      ensures store.Valid() && Onward(old(store.Now()), queried) && Onward(queried, store.Now()) && store.Was(queried.log, queried.world)
      ensures r.Ok? ==> Idle(store.db, from)
      ensures r.Ok? ==> if done then UnstartedOf(store.db, from) == {} else Backlog() < old(Backlog())
      ensures r.Ok? ==> done == NextUnstarted(queried.world.db, from).None?
      ensures r.Ok? && !done ==> FirstIsLaunched(queried, etx, attempt, initialBroadcastAt, xs, quotes, store.Now())
      ensures r.Failed? ==> BroadcastFailure(gas, from, r.why, old(store.Now()), store.Now())
    {
      var found, next;
      r, found, next, queried := NextUnstartedWithNonce();
      etx, attempt, xs, quotes := next, Attempt(0, next.id, 0, None, Sending), [], [];
      if !r.Ok? || !found {
        return r, true, queried, etx, attempt, 0, xs, quotes;
      }
      ghost var ready := store.Now();
      r, attempt, initialBroadcastAt, xs, quotes := StartAndHandle(next);
      if r.Ok? {
        LaunchedLater(next, attempt, initialBroadcastAt, xs, quotes, queried, ready, store.Now());
      } else {
        FailureSince(gas, from, r.why, old(store.Now()), ready, store.Now());
      }
      done := false;
    }

    ghost predicate FirstIsLaunched(queried: Moment, etx: EthTx, attempt: Attempt, initialBroadcastAt: int,
                                    xs: seq<Exchange>, quotes: seq<int>, after: Moment) {
      && store.Was(queried.log, queried.world) && FirstInLine(queried, etx)
      && Launched(etx.(state := InProgress), attempt, initialBroadcastAt, xs, quotes, queried, after)
    }

    lemma LaunchedLater(etx: EthTx, attempt: Attempt, initialBroadcastAt: int, xs: seq<Exchange>, quotes: seq<int>,
                        queried: Moment, ready: Moment, after: Moment)
      requires Launched(etx.(state := InProgress), attempt, initialBroadcastAt, xs, quotes, ready, after)
      requires Onward(queried, ready) && StillUnstarted(etx.id, queried, ready)
      ensures Launched(etx.(state := InProgress), attempt, initialBroadcastAt, xs, quotes, queried, after)
    {
      HeardSince(etx.id, xs, [attempt.price] + quotes, queried, ready, after);
      StillCalled(queried.calls, ready.calls, after.calls, Clock(etx.id, initialBroadcastAt));
    }

    /** Since before, the transaction that was first in line at some time was sent, and closed as the
        node's last answer asks. */
    ghost predicate Round(before: Moment, after: Moment) {
      exists queried, etx, attempt, at, xs, quotes ::
        Onward(before, queried) && Onward(queried, after) && FirstIsLaunched(queried, etx, attempt, at, xs, quotes, after)
    }

    ghost predicate Rounds(moments: seq<Moment>) {
      && moments != []
      && (forall i :: 0 <= i < |moments| ==> store.Was(moments[i].log, moments[i].world))
      && (forall i :: 0 < i < |moments| ==> Round(moments[i - 1], moments[i]))
    }

    lemma OneMoreRound(moments: seq<Moment>, next: Moment)
      requires Rounds(moments) && store.Was(next.log, next.world) && Round(moments[|moments| - 1], next)
      ensures Rounds(moments + [next])
    {
    }

    method ProcessRound() returns (r: Status, done: bool)
      requires store.Valid() && gas.bumpWei >= 1 && Idle(store.db, from)
      modifies store
      ensures store.Valid() && Onward(old(store.Now()), store.Now()) && (r.Ok? ==> Idle(store.db, from))
      ensures r.Ok? ==> if done then UnstartedOf(store.db, from) == {} else Backlog() < old(Backlog())
      ensures r.Ok? && !done ==> Round(old(store.Now()), store.Now())
      ensures r.Failed? ==> BroadcastFailure(gas, from, r.why, old(store.Now()), store.Now())
    {
      ghost var queried, etx, attempt, at, xs, quotes;
      r, done, queried, etx, attempt, at, xs, quotes := ProcessNext();
    }

    /** Up to after, what was in progress before was sent and closed as the node's last answer asks. */
    ghost predicate Recovered(left: Found, before: Moment, after: Moment) {
      && LeftInProgress(before.world.db, left) && Onward(before, after)
      && (left.One? ==> exists xs, quotes :: Resumed(left.etx, left.attempt, xs, quotes, Ok, before, after))
    }

    /** The recovery as the first thing processUnstartedEthTxs does. */
    method Recover() returns (r: Status, ghost left: Found)
      requires store.Valid() && gas.bumpWei >= 1
      modifies store
      ensures store.Valid() && Onward(old(store.Now()), store.Now()) && (r.Ok? ==> Idle(store.db, from))
      ensures LeftInProgress(old(store.db), left)
      ensures r.Ok? ==> Recovered(left, old(store.Now()), store.Now())
      ensures r.Failed? ==> BroadcastFailure(gas, from, r.why, old(store.Now()), store.Now())
    {
      ghost var xs, quotes;
      r, left, xs, quotes := HandleAnyInProgressEthTx();
    }

    /** processUnstartedEthTxs: it first finishes what was in progress on entry and then works in rounds;
        moments are the ends of the recovery, if that succeeded, and of each round. A nil return means
        that nothing of this address was left to send; a failure has its cause on record. */
    method ProcessUnstartedEthTxs() returns (r: Status, ghost left: Found, ghost moments: seq<Moment>)
      requires store.Valid() && gas.bumpWei >= 1
      modifies store
      ensures store.Valid() && Onward(old(store.Now()), store.Now())
      ensures LeftInProgress(old(store.db), left) && (moments == [] ==> r.Failed?)
      ensures moments != [] ==> Recovered(left, old(store.Now()), moments[0])
      ensures moments != [] ==> Rounds(moments) && Onward(moments[|moments| - 1], store.Now())
      ensures r.Ok? ==> Idle(store.db, from) && UnstartedOf(store.db, from) == {}
      ensures r.Failed? ==> BroadcastFailure(gas, from, r.why, old(store.Now()), store.Now())
      ensures AllWell(from, old(store.Now()), store.Now()) ==> r.Ok?
    {
      moments := [];
      r, left := Recover();
      if r.Ok? {
        ghost var recovered := store.Now();
        r, moments := WorkOff();
        if r.Failed? {
          FailureSince(gas, from, r.why, old(store.Now()), recovered, store.Now());
        }
      }
      if AllWell(from, old(store.Now()), store.Now()) {
        NothingWrongMeansOk(gas, from, r, old(store.Now()), store.Now());
      }
    }

    /** The loop, in rounds from now on. */
    method WorkOff() returns (r: Status, ghost moments: seq<Moment>)
      requires store.Valid() && gas.bumpWei >= 1 && Idle(store.db, from)
      modifies store
      ensures store.Valid() && Onward(old(store.Now()), store.Now())
      ensures Rounds(moments) && moments[0] == old(store.Now()) && Onward(moments[|moments| - 1], store.Now())
      ensures r.Ok? ==> Idle(store.db, from) && UnstartedOf(store.db, from) == {}
      ensures r.Failed? ==> BroadcastFailure(gas, from, r.why, old(store.Now()), store.Now())
    {
      ghost var before := store.Now();
      r, moments := Ok, [before];
      var done := false;
      while !done
        invariant store.Valid() && Onward(before, store.Now())
        invariant Rounds(moments) && moments[0] == before && Onward(moments[|moments| - 1], store.Now())
        invariant !done ==> moments[|moments| - 1] == store.Now()
        invariant r.Ok? && Idle(store.db, from) && (done ==> UnstartedOf(store.db, from) == {})
        decreases !done, Backlog()
      {
        ghost var start := store.Now();
        r, done := ProcessRound();
        if !r.Ok? {
          FailureSince(gas, from, r.why, before, start, store.Now());
          return;
        }
        if !done {
          OneMoreRound(moments, store.Now());
          moments := moments + [store.Now()];
        }
      }
    }
  }
}
