/** eth_confirmer.go: sending and resending attempts for transactions already handed over. */
module ConfirmerSending {
  import opened Options
  import opened Ordering
  import opened GasPrice
  import opened TxTables
  import opened TxTransactions
  import opened TxInvariant
  import opened TxInterference
  import opened TxStore
  import opened ConfirmerFrames

  /** The transaction that closes an attempt is the one the node's answer to it asks for. */
  predicate Settled(txn: Transaction, x: Exchange) {
    var answer := Classified(x.raw);
    && !AsksForMore(answer)
    && if CountsAsSent(answer) then txn == SaveSentAttempt(x.attempt)
       else if answer.value.fatal then txn == DeleteAttempt(x.attempt)
       else answer.value.insufficientEth && txn == SaveInsufficientEth(x.attempt)
  }

  predicate AsksForMore(answer: Option<SendError>) {
    answer.Some? && answer.value.terminallyUnderpriced
  }

  predicate CountsAsSent(answer: Option<SendError>) {
    answer.None? || answer.value.temporarilyUnderpriced
    || (!answer.value.fatal && (answer.value.nonceTooLow || answer.value.replacementUnderpriced))
  }

  /** The answers that are none of these: the attempt is left for the next head. */
  predicate LeavesOpen(answer: Option<SendError>) {
    answer.Some? && !AsksForMore(answer) && !CountsAsSent(answer) && !answer.value.fatal && !answer.value.insufficientEth
  }

  /** What handleInProgressAttempt makes of the node's raw answer. */
  lemma AnswersInFlags(raw: Option<SendError>)
    ensures AsksForMore(Classified(raw)) <==> raw.Some? && !raw.value.alreadyInMempool && raw.value.terminallyUnderpriced
    ensures CountsAsSent(Classified(raw)) <==>
              || raw.None? || raw.value.alreadyInMempool || raw.value.temporarilyUnderpriced
              || (!raw.value.fatal && (raw.value.nonceTooLow || raw.value.replacementUnderpriced))
    ensures LeavesOpen(Classified(raw)) <==>
              && raw.Some? && !raw.value.alreadyInMempool && !raw.value.terminallyUnderpriced && !raw.value.temporarilyUnderpriced
              && !raw.value.fatal && !raw.value.nonceTooLow && !raw.value.replacementUnderpriced && !raw.value.insufficientEth
  {
  }

  /** How handleInProgressAttempt ends, after the exchanges xs about the transaction. */
  ghost predicate HandledAttempt(gas: GasConfig, attempt: Attempt, xs: seq<Exchange>, quotes: seq<int>, r: Status, before: Moment, after: Moment) {
    && Heard(attempt.txId, xs, quotes, before, after) && Conversation(gas, xs, quotes, attempt, AsksForMore)
    && ResendEnded(gas, attempt.txId, xs[|xs| - 1], InVain(xs, quotes), r, before, after)
  }

  /** How it ends after the last of them, and the quote of a bump that led to no further one. */
  ghost predicate ResendEnded(gas: GasConfig, t: nat, x: Exchange, quote: Option<int>, r: Status, before: Moment, after: Moment) {
    var answer := Classified(x.raw);
    match r
    case Ok =>
      && quote.None? && Ends(after.calls, Sent(x)) && NoneSending(after.world.db, t)
      && after.log != [] && Settled(after.log[|after.log| - 1], x)
    case Failed(why) =>
      match why
      case DbFailure => before.outages < after.outages
      case NodeFailure => quote.None? && Ends(after.calls, Sent(x)) && LeavesOpen(answer)
      case Rejected(_) => false
      case KeyStoreFailure => quote.Some? && AsksForMore(answer) && Ends(after.calls, Signature(t, false))
      case BumpFailure =>
        && quote.Some? && AsksForMore(answer) && EndsInTwo(after.calls, Sent(x), Quote(t, quote.value))
        && NoneWithinLimit(gas, quote.value, x.attempt.price)
  }

  /** The conversation about a replacement carries on the one that asked for it. */
  lemma ResendGoesOn(gas: GasConfig, attempt: Attempt, x: Exchange, quote: int, replacement: Attempt, xs: seq<Exchange>, quotes: seq<int>,
                     r: Status, before: Moment, now: Moment, middle: Moment, after: Moment)
    requires HandledAttempt(gas, replacement, xs, quotes, r, middle, after) && replacement.txId == attempt.txId
    requires x.attempt == attempt && AsksForMore(Classified(x.raw)) && Raised(gas, quote, attempt.price, replacement.price)
    requires Heard(attempt.txId, [x], [], before, now) && Requoted(attempt.txId, quote, 1, now, middle)
    ensures HandledAttempt(gas, attempt, [x] + xs, [quote] + quotes, r, before, after)
  {
    HeardMore(attempt.txId, x, quote, xs, quotes, before, now, middle, after);
    LongerConversation(gas, x, attempt, quote, xs, quotes, replacement, AsksForMore);
  }

  lemma AskedInVain(gas: GasConfig, attempt: Attempt, x: Exchange, quote: int, why: Problem, before: Moment, now: Moment, after: Moment)
    requires Heard(attempt.txId, [x], [], before, now) && Ends(now.calls, Sent(x)) && x.attempt == attempt && AsksForMore(Classified(x.raw))
    requires Requoted(attempt.txId, quote, 0, now, after) && NoDearer(gas, attempt.txId, attempt.price, quote, why, now, after)
    ensures HandledAttempt(gas, attempt, [x], [quote], Failed(why), before, after)
  {
    HeardAndRequoted(attempt.txId, x, quote, before, now, after);
  }

  /** An already known attempt is saved as sent, unless the database cannot be reached. */
  lemma AlreadyKnownIsSent(gas: GasConfig, attempt: Attempt, xs: seq<Exchange>, quotes: seq<int>, r: Status, before: Moment, after: Moment)
    requires HandledAttempt(gas, attempt, xs, quotes, r, before, after)
    requires xs[|xs| - 1].raw.Some? && xs[|xs| - 1].raw.value.alreadyInMempool
    ensures if r.Ok? then after.log != [] && after.log[|after.log| - 1] == SaveSentAttempt(xs[|xs| - 1].attempt)
            else r.why.DbFailure? && before.outages < after.outages
  {
    AnswersInFlags(xs[|xs| - 1].raw);
  }

  // ---- why a worker can fail ----

  /** Every failure has its cause on record: the database, or the last that was said to the outside. */
  ghost predicate ResendFailure(gas: GasConfig, why: Problem, before: Moment, after: Moment) {
    var calls := after.calls;
    if why.DbFailure? then before.outages < after.outages
    else
      && before.calls < calls
      && match calls[|calls| - 1]
         case Signature(_, signed) => why.KeyStoreFailure? && !signed
         case Quote(t, default) =>
           && why.BumpFailure? && |before.calls| + 2 <= |calls| && calls[|calls| - 2].Sent?
           && var x := calls[|calls| - 2].x;
              && x.attempt.txId == t && AsksForMore(Classified(x.raw)) && NoneWithinLimit(gas, default, x.attempt.price)
         case Sent(x) => why.NodeFailure? && LeavesOpen(Classified(x.raw))
         case _ => false
  }

  lemma ResendFailureSince(gas: GasConfig, why: Problem, earlier: Moment, before: Moment, after: Moment)
    requires ResendFailure(gas, why, before, after) && Onward(earlier, before)
    ensures ResendFailure(gas, why, earlier, after)
  {
  }

  lemma FailedToResend(gas: GasConfig, attempt: Attempt, xs: seq<Exchange>, quotes: seq<int>, why: Problem, before: Moment, after: Moment)
    requires HandledAttempt(gas, attempt, xs, quotes, Failed(why), before, after)
    ensures ResendFailure(gas, why, before, after)
  {
    LastIsAbout(attempt.txId, xs, quotes, before, after);
  }

  function Rows(db: Db, ids: seq<nat>): seq<Attempt>
    requires forall i :: 0 <= i < |ids| ==> ids[i] in db.attempts
  {
    seq(|ids|, i requires 0 <= i < |ids| => db.attempts[ids[i]])
  }

  ghost predicate OneUnsentEach(db: Db) {
    forall x, y :: x in db.attempts && y in db.attempts && x != y ==>
      db.attempts[x].state == Sending && db.attempts[y].state == Sending ==> db.attempts[x].txId != db.attempts[y].txId
  }

  lemma UnsentDiffer(w: World)
    requires Inv(w)
    ensures OneUnsentEach(w.db)
  {
    forall x, y | x in w.db.attempts && y in w.db.attempts && x != y
                  && w.db.attempts[x].state == Sending && w.db.attempts[y].state == Sending
      ensures w.db.attempts[x].txId != w.db.attempts[y].txId
    {
      var t := w.db.attempts[x].txId;
      assert TxOk(w, t) && Of(w.db, x, t);
      assert w.db.attempts[y].txId == t ==> Of(w.db, y, t);
    }
  }

  /** One worker for one key. siblings are the keys that other workers are busy with. */
  class KeyWork {
    const store: Store
    const gas: GasConfig
    ghost const siblings: set<Address>

    constructor (store: Store, gas: GasConfig, ghost siblings: set<Address>)
      ensures this.store == store && this.gas == gas && this.siblings == siblings
    {
      this.store, this.gas, this.siblings := store, gas, siblings;
    }

    ghost predicate Assigned(db: Db, attempt: Attempt) {
      IsRow(db, attempt) && attempt.state == Sending && Owns(KeyWorker(siblings), db, attempt.txId)
    }

    lemma StaysAssigned(db: Db, db': Db, attempt: Attempt)
      requires Rely(KeyWorker(siblings), db, db') && Assigned(db, attempt)
      ensures Assigned(db', attempt)
    {
      assert Frozen(db, db', attempt.txId) && Of(db, attempt.id, attempt.txId);
    }

    /** handleInProgressAttempt. xs is all that was sent and answered about the transaction meanwhile, and
        quotes the default gas prices read for it. */
    method HandleInProgressAttempt(attempt: Attempt) returns (r: Status, ghost xs: seq<Exchange>, ghost quotes: seq<int>)
      requires store.Valid() && gas.bumpWei >= 1 && Assigned(store.db, attempt)
      modifies store
      ensures store.Valid() && Onward(old(store.Now()), store.Now())
      ensures Worked(KeyWorker(siblings), {attempt.txId}, old(store.db), store.db)
      ensures SentSince(old(store.calls), store.calls, attempt)
      ensures HandledAttempt(gas, attempt, xs, quotes, r, old(store.Now()), store.Now())
      decreases Headroom(gas, attempt.price), 2
    {
      var answer;
      ghost var before := store.Now();
      ghost var x;
      answer, x := Send(attempt);
      ghost var db1, calls1 := store.db, store.calls;
      r, xs, quotes := SettleAnswer(attempt, answer, x, before);
      assert Worked(KeyWorker(siblings), {attempt.txId}, before.world.db, store.db) by {
        WorkedIsTransitive(KeyWorker(siblings), {attempt.txId}, before.world.db, db1, store.db);
      }
      StillSent(before.calls, calls1, store.calls, attempt);
    }

    /** What is known when the answer to attempt has come in. */
    ghost predicate Answered(attempt: Attempt, answer: Option<SendError>, x: Exchange, before: Moment, now: Moment) {
      && Onward(before, now) && before.outages == now.outages && Heard(attempt.txId, [x], [], before, now) && Ends(now.calls, Sent(x))
      && x.attempt == attempt && answer == Classified(x.raw)
    }

    /** sendTransaction, for an attempt of this worker, which stays as it is. */
    method Send(attempt: Attempt) returns (answer: Option<SendError>, ghost x: Exchange)
      requires store.Valid() && Assigned(store.db, attempt)
      modifies store
      ensures store.Valid() && Assigned(store.db, attempt) && Answered(attempt, answer, x, old(store.Now()), store.Now())
      ensures Worked(KeyWorker(siblings), {attempt.txId}, old(store.db), store.db)
      ensures SentSince(old(store.calls), store.calls, attempt)
    {
      var me := KeyWorker(siblings);
      answer := store.SendTransaction(me, attempt);
      x := store.calls[|store.calls| - 1].x;
      StaysAssigned(old(store.db), store.db, attempt);
      RelyIsWorked(me, old(store.db), store.db);
      WorkedWidens(me, {}, {attempt.txId}, old(store.db), store.db);
    }

    /** What the answers a resent attempt can get lead to. */
    method SettleAnswer(attempt: Attempt, answer: Option<SendError>, ghost x: Exchange, ghost before: Moment)
      returns (r: Status, ghost xs: seq<Exchange>, ghost quotes: seq<int>)
      requires store.Valid() && gas.bumpWei >= 1 && Assigned(store.db, attempt)
      requires Answered(attempt, answer, x, before, store.Now())
      modifies store
      ensures store.Valid() && Onward(old(store.Now()), store.Now())
      ensures Worked(KeyWorker(siblings), {attempt.txId}, old(store.db), store.db)
      ensures HandledAttempt(gas, attempt, xs, quotes, r, before, store.Now())
      decreases Headroom(gas, attempt.price), 1
    {
      if answer.Some? && answer.value.terminallyUnderpriced {
        r, xs, quotes := Reprice(attempt, x, before);
        return;
      }
      r := Close(attempt, answer, x, before);
      xs, quotes := [x], [];
    }

    /** The answer asks for no replacement. */
    method Close(attempt: Attempt, answer: Option<SendError>, ghost x: Exchange, ghost before: Moment) returns (r: Status)
      requires store.Valid() && Assigned(store.db, attempt)
      requires Answered(attempt, answer, x, before, store.Now()) && !AsksForMore(answer)
      modifies store
      ensures store.Valid() && Onward(old(store.Now()), store.Now()) && store.calls == old(store.calls)
      ensures Worked(KeyWorker(siblings), {attempt.txId}, old(store.db), store.db)
      ensures Heard(attempt.txId, [x], [], before, store.Now()) && ResendEnded(gas, attempt.txId, x, None, r, before, store.Now())
    {
      var sendError := answer;
      if sendError.Some? && sendError.value.temporarilyUnderpriced {
        sendError := None;
      }
      if sendError.Some? && sendError.value.fatal {
        r := Finish(DeleteAttempt(attempt), x, before);
        return;
      }
      if sendError.Some? && sendError.value.nonceTooLow {
        sendError := None;
      }
      if sendError.Some? && sendError.value.replacementUnderpriced {
        sendError := None;
      }
      if sendError.Some? && sendError.value.insufficientEth {
        r := Finish(SaveInsufficientEth(attempt), x, before);
        return;
      }
      if sendError.None? {
        r := Finish(SaveSentAttempt(attempt), x, before);
        return;
      }
      WorkedReflexive(store.db, attempt.txId);
      r := Failed(NodeFailure);
    }

    lemma WorkedReflexive(db: Db, t: nat)
      ensures Worked(KeyWorker(siblings), {t}, db, db)
    {
    }

    /** saveSentAttempt, saveInsufficientEthAttempt or deleteInProgressAttempt, as the answer asks. */
    method Finish(txn: Transaction, ghost x: Exchange, ghost before: Moment) returns (r: Status)
      requires (txn.SaveSentAttempt? || txn.SaveInsufficientEth? || txn.DeleteAttempt?) && Settled(txn, x)
      requires store.Valid() && Assigned(store.db, txn.attempt)
      requires Answered(txn.attempt, Classified(x.raw), x, before, store.Now())
      modifies store
      ensures store.Valid() && Onward(old(store.Now()), store.Now()) && store.calls == old(store.calls)
      ensures Worked(KeyWorker(siblings), {txn.attempt.txId}, old(store.db), store.db)
      ensures Heard(txn.attempt.txId, [x], [], before, store.Now()) && ResendEnded(gas, txn.attempt.txId, x, None, r, before, store.Now())
    {
      r := Commit(txn);
    }

    /** The transaction on the database; only reaching it can fail. */
    method Commit(txn: Transaction) returns (r: Status)
      requires (txn.SaveSentAttempt? || txn.SaveInsufficientEth? || txn.DeleteAttempt?)
      requires store.Valid() && Assigned(store.db, txn.attempt)
      modifies store
      ensures store.Valid() && Onward(old(store.Now()), store.Now()) && store.calls == old(store.calls)
      ensures Worked(KeyWorker(siblings), {txn.attempt.txId}, old(store.db), store.db)
      ensures r.Ok? ==> NoneSending(store.db, txn.attempt.txId) && store.log == old(store.log) + [txn]
      ensures Replacements(store.log, txn.attempt.txId) == Replacements(old(store.log), txn.attempt.txId)
      ensures OnlyUnreachable(r, old(store.outages), store.outages)
    {
      ghost var db := store.db;
      assert PricesOk(db, txn.attempt.txId) by {
        store.InvHolds();
        assert TxOk(store.world, txn.attempt.txId);
      }
      OneMoreCommit(store.log, txn, txn.attempt.txId);
      r := store.Transact(KeyWorker(siblings), txn);
      if r.Ok? {
        FinishingAttempt(db, txn, store.db);
        OwnStep(KeyWorker(siblings), db, txn, store.db, txn.attempt.txId);
      } else {
        WorkedReflexive(db, txn.attempt.txId);
      }
    }

    /** The terminally underpriced branch of handleInProgressAttempt: success takes a dearer attempt,
        which replaces this one and is sent in its turn. */
    method Reprice(attempt: Attempt, ghost x: Exchange, ghost before: Moment)
      returns (r: Status, ghost xs: seq<Exchange>, ghost quotes: seq<int>)
      requires store.Valid() && gas.bumpWei >= 1 && Assigned(store.db, attempt)
      requires Answered(attempt, Classified(x.raw), x, before, store.Now()) && AsksForMore(Classified(x.raw))
      modifies store
      ensures store.Valid() && Onward(old(store.Now()), store.Now())
      ensures Worked(KeyWorker(siblings), {attempt.txId}, old(store.db), store.db)
      ensures HandledAttempt(gas, attempt, xs, quotes, r, before, store.Now())
      ensures quotes != [] && (r.Ok? ==> |xs| > 1)
      decreases Headroom(gas, attempt.price), 0
    {
      ghost var now := store.Now();
      var replacement;
      ghost var quote;
      r, replacement, quote := SaveDearer(attempt);
      xs, quotes := [x], [quote];
      if !r.Ok? {
        AskedInVain(gas, attempt, x, quote, r.why, before, now, store.Now());
        return;
      }
      ghost var middle := store.Now();
      ghost var more, further;
      r, more, further := HandleInProgressAttempt(replacement);
      assert Worked(KeyWorker(siblings), {attempt.txId}, old(store.db), store.db) by {
        WorkedIsTransitive(KeyWorker(siblings), {attempt.txId}, old(store.db), middle.world.db, store.db);
      }
      ResendGoesOn(gas, attempt, x, quote, replacement, more, further, r, before, now, middle, store.Now());
      xs, quotes := [x] + more, [quote] + further;
    }

    /** The replacement, at the price a bump makes with the default price read then. */
    method SaveDearer(attempt: Attempt) returns (r: Status, replacement: Attempt, ghost quote: int)
      requires store.Valid() && gas.bumpWei >= 1 && Assigned(store.db, attempt)
      modifies store
      ensures store.Valid() && Onward(old(store.Now()), store.Now())
      ensures Worked(KeyWorker(siblings), {attempt.txId}, old(store.db), store.db)
      ensures Requoted(attempt.txId, quote, if r.Ok? then 1 else 0, old(store.Now()), store.Now())
      ensures r.Ok? ==> Assigned(store.db, replacement) && replacement.txId == attempt.txId
      ensures r.Ok? ==> Raised(gas, quote, attempt.price, replacement.price)
                        && attempt.price < replacement.price && Headroom(gas, replacement.price) < Headroom(gas, attempt.price)
      ensures r.Failed? ==> NoDearer(gas, attempt.txId, attempt.price, quote, r.why, old(store.Now()), store.Now())
    {
      replacement := attempt;
      WorkedReflexive(store.db, attempt.txId);
      var higher;
      r, higher, quote := store.DearerOffer(gas, attempt.txId, attempt.price);
      if r.Ok? {
        r, replacement := Replace(attempt, higher);
      }
    }

    /** saveReplacementInProgressAttempt. */
    method Replace(attempt: Attempt, price: int) returns (r: Status, replacement: Attempt)
      requires store.Valid() && Assigned(store.db, attempt) && price > attempt.price
      modifies store
      ensures store.Valid() && Onward(old(store.Now()), store.Now()) && store.calls == old(store.calls)
      ensures Worked(KeyWorker(siblings), {attempt.txId}, old(store.db), store.db)
      ensures r.Ok? ==> Assigned(store.db, replacement) && replacement.txId == attempt.txId && replacement.price == price
      ensures Replacements(store.log, attempt.txId) == Replacements(old(store.log), attempt.txId) + if r.Ok? then 1 else 0
      ensures r.Failed? ==> r.why.DbFailure?
      ensures store.outages == old(store.outages) + if r.Failed? then 1 else 0
    {
      replacement := Attempt(0, attempt.txId, price, None, Sending);
      ghost var before := store.db;
      OneMoreCommit(store.log, SaveReplacement(attempt, replacement), attempt.txId);
      WorkedReflexive(before, attempt.txId);
      r := store.Transact(KeyWorker(siblings), SaveReplacement(attempt, replacement));
      if r.Ok? {
        ReplacedIsAssigned(before, attempt, replacement, store.db);
        replacement := replacement.(id := store.db.attemptSeq - 1);
      }
    }

    lemma ReplacedIsAssigned(db: Db, attempt: Attempt, replacement: Attempt, db': Db)
      requires Assigned(db, attempt) && replacement.txId == attempt.txId && replacement.state == Sending
      requires Applies(db, SaveReplacement(attempt, replacement), db')
      ensures Worked(KeyWorker(siblings), {attempt.txId}, db, db')
      ensures db'.attemptSeq == db.attemptSeq + 1 && Assigned(db', replacement.(id := db.attemptSeq))
    {
      ReplacingAttempt(db, attempt, replacement, db');
      OwnStep(KeyWorker(siblings), db, SaveReplacement(attempt, replacement), db', attempt.txId);
    }

    // ---- handleAnyInProgressAttempts ----

    ghost predicate NoneUnfinished(db: Db, from: Address) {
      forall t :: Owns(KeyWorker(siblings), db, t) && db.txes[t].from == from ==> NoneSending(db, t)
    }

    /** The unfinished attempts of an address, as loaded: one for each transaction. */
    ghost predicate Loaded(db: Db, from: Address, list: seq<Attempt>) {
      && (forall i :: 0 <= i < |list| ==> Assigned(db, list[i]) && db.txes[list[i].txId].from == from)
      && (forall i, j :: 0 <= i < j < |list| ==> list[i].txId != list[j].txId)
      && (forall t :: Owns(KeyWorker(siblings), db, t) && db.txes[t].from == from && !NoneSending(db, t) ==>
            exists i :: 0 <= i < |list| && list[i].txId == t)
      && (forall x :: x in UnfinishedAttempts(db, from) ==> db.attempts[x] in list)
    }

    function UnfinishedIds(db: Db, from: Address): seq<nat> {
      SortBy(UnfinishedAttempts(db, from), x => 0)
    }

    function LoadUnfinished(db: Db, from: Address): seq<Attempt> {
      var ids := UnfinishedIds(db, from);
      assert forall i :: 0 <= i < |ids| ==> ids[i] in ids;
      Rows(db, ids)
    }

    lemma UnfinishedAt(db: Db, from: Address, i: nat)
      requires Shape(db) && from !in siblings && i < |LoadUnfinished(db, from)|
      ensures var a := LoadUnfinished(db, from)[i]; Assigned(db, a) && db.txes[a.txId].from == from
      ensures LoadUnfinished(db, from)[i].id == UnfinishedIds(db, from)[i]
    {
      var ids := UnfinishedIds(db, from);
      assert ids[i] in ids;
    }

    lemma UnfinishedIn(db: Db, from: Address, x: nat)
      requires x in UnfinishedAttempts(db, from)
      ensures exists i :: 0 <= i < |LoadUnfinished(db, from)| && LoadUnfinished(db, from)[i] == db.attempts[x]
    {
      var ids := UnfinishedIds(db, from);
      assert x in ids;
      var i :| 0 <= i < |ids| && ids[i] == x;
      assert LoadUnfinished(db, from)[i] == db.attempts[x];
    }

    lemma UnfinishedDiffer(db: Db, from: Address, i: nat, j: nat)
      requires Shape(db) && OneUnsentEach(db) && from !in siblings && i < j < |LoadUnfinished(db, from)|
      ensures LoadUnfinished(db, from)[i].txId != LoadUnfinished(db, from)[j].txId
    {
      UnfinishedAt(db, from, i);
      UnfinishedAt(db, from, j);
      assert UnfinishedIds(db, from)[i] != UnfinishedIds(db, from)[j];
    }

    lemma UnfinishedOf(db: Db, from: Address, t: nat)
      requires Owns(KeyWorker(siblings), db, t) && db.txes[t].from == from && !NoneSending(db, t)
      ensures exists i :: 0 <= i < |LoadUnfinished(db, from)| && LoadUnfinished(db, from)[i].txId == t
    {
      var x: nat :| Of(db, x, t) && db.attempts[x].state == Sending;
      UnfinishedIn(db, from, x);
    }

    lemma LoadUnfinishedIsLoaded(db: Db, from: Address)
      requires Shape(db) && OneUnsentEach(db) && from !in siblings
      ensures Loaded(db, from, LoadUnfinished(db, from))
    {
      var list := LoadUnfinished(db, from);
      forall i | 0 <= i < |list|
        ensures Assigned(db, list[i]) && db.txes[list[i].txId].from == from
      {
        UnfinishedAt(db, from, i);
      }
      forall i, j | 0 <= i < j < |list|
        ensures list[i].txId != list[j].txId
      {
        UnfinishedDiffer(db, from, i, j);
      }
      forall t | Owns(KeyWorker(siblings), db, t) && db.txes[t].from == from && !NoneSending(db, t)
        ensures exists i :: 0 <= i < |list| && list[i].txId == t
      {
        UnfinishedOf(db, from, t);
      }
      forall x | x in UnfinishedAttempts(db, from)
        ensures db.attempts[x] in list
      {
        UnfinishedIn(db, from, x);
      }
    }

    ghost function TxIds(list: seq<Attempt>): set<nat> {
      set i | 0 <= i < |list| :: list[i].txId
    }

    /** Transactions of this address may be finished; other keys are left alone. */
    ghost predicate KeyFrame(from: Address, db: Db, db': Db) {
      && (forall t :: Owns(KeyWorker(siblings), db, t) ==>
            if db.txes[t].from == from then Touched(db, db', t) else Frozen(db, db', t))
      && (forall t :: Owns(KeyWorker(siblings), db', t) && !Owns(KeyWorker(siblings), db, t) ==> Newcomer(KeyWorker(siblings), db', t))
    }

    lemma WorkedIsKeyFrame(from: Address, busy: set<nat>, db: Db, db': Db)
      requires Worked(KeyWorker(siblings), busy, db, db')
      requires forall t :: t in busy ==> t in db.txes && db.txes[t].from == from
      ensures KeyFrame(from, db, db')
    {
      forall t | Owns(KeyWorker(siblings), db, t) && db.txes[t].from == from && t !in busy
        ensures Touched(db, db', t)
      {
        FrozenIsTouched(db, db', t);
      }
    }

    lemma RelyThenKeyFrame(from: Address, db0: Db, db1: Db, db2: Db)
      requires Rely(KeyWorker(siblings), db0, db1) && KeyFrame(from, db1, db2)
      ensures KeyFrame(from, db0, db2)
    {
      forall t | Owns(KeyWorker(siblings), db0, t)
        ensures if db0.txes[t].from == from then Touched(db0, db2, t) else Frozen(db0, db2, t)
      {
        assert Frozen(db0, db1, t) && Owns(KeyWorker(siblings), db1, t);
        if db0.txes[t].from == from {
          FrozenIsTouched(db0, db1, t);
          TouchedIsTransitive(db0, db1, db2, t);
        } else {
          FrozenIsTransitive(db0, db1, db2, t);
        }
      }
      forall t | Owns(KeyWorker(siblings), db2, t) && !Owns(KeyWorker(siblings), db0, t)
        ensures Newcomer(KeyWorker(siblings), db2, t)
      {
        if Owns(KeyWorker(siblings), db1, t) {
          if db1.txes[t].from != from {
            FrozenIsTouched(db1, db2, t);
          }
          NewcomerStays(KeyWorker(siblings), db1, db2, t);
        }
      }
    }

    lemma KeyFrameThenRely(from: Address, db0: Db, db1: Db, db2: Db)
      requires KeyFrame(from, db0, db1) && Rely(KeyWorker(siblings), db1, db2)
      ensures KeyFrame(from, db0, db2)
    {
      forall t | Owns(KeyWorker(siblings), db0, t)
        ensures if db0.txes[t].from == from then Touched(db0, db2, t) else Frozen(db0, db2, t)
      {
        assert Owns(KeyWorker(siblings), db1, t) && Frozen(db1, db2, t);
        if db0.txes[t].from == from {
          FrozenIsTouched(db1, db2, t);
          TouchedIsTransitive(db0, db1, db2, t);
        } else {
          FrozenIsTransitive(db0, db1, db2, t);
        }
      }
      forall t | Owns(KeyWorker(siblings), db2, t) && !Owns(KeyWorker(siblings), db0, t)
        ensures Newcomer(KeyWorker(siblings), db2, t)
      {
        if Owns(KeyWorker(siblings), db1, t) {
          FrozenIsTouched(db1, db2, t);
          NewcomerStays(KeyWorker(siblings), db1, db2, t);
        }
      }
    }

    lemma AllDone(from: Address, list: seq<Attempt>, db1: Db, db2: Db)
      requires Loaded(db1, from, list) && Worked(KeyWorker(siblings), TxIds(list), db1, db2)
      requires forall i :: 0 <= i < |list| ==> NoneSending(db2, list[i].txId)
      ensures NoneUnfinished(db2, from)
    {
      forall t | Owns(KeyWorker(siblings), db2, t) && db2.txes[t].from == from
        ensures NoneSending(db2, t)
      {
        if Owns(KeyWorker(siblings), db1, t) {
          if t !in TxIds(list) {
            assert Frozen(db1, db2, t) && NoneSending(db1, t);
          }
        } else {
          assert Newcomer(KeyWorker(siblings), db2, t);
        }
      }
    }

    lemma FrozenStaysAssigned(busy: set<nat>, db: Db, db': Db, attempt: Attempt)
      requires Worked(KeyWorker(siblings), busy, db, db') && Assigned(db, attempt) && attempt.txId !in busy
      ensures Assigned(db', attempt)
    {
      assert Frozen(db, db', attempt.txId) && Of(db, attempt.id, attempt.txId);
    }

    /** The attempts of list were sent again and none of their transactions has one left to send. */
    ghost predicate Handled(list: seq<Attempt>, db0: Db, db: Db, s0: seq<Call>, s: seq<Call>) {
      && s0 <= s && Worked(KeyWorker(siblings), TxIds(list), db0, db)
      && forall i :: 0 <= i < |list| ==> NoneSending(db, list[i].txId) && SentSince(s0, s, list[i])
    }

    lemma HandledOneMore(list: seq<Attempt>, next: Attempt, db0: Db, db1: Db, db2: Db,
                         s0: seq<Call>, s1: seq<Call>, s2: seq<Call>)
      requires Handled(list, db0, db1, s0, s1) && Worked(KeyWorker(siblings), {next.txId}, db1, db2)
      requires NoneSending(db2, next.txId) && SentSince(s1, s2, next)
      requires forall i :: 0 <= i < |list| ==> list[i].txId != next.txId && Owns(KeyWorker(siblings), db0, list[i].txId)
      ensures Handled(list + [next], db0, db2, s0, s2)
    {
      WorkedOn(TxIds(list), next.txId, db0, db1, db2);
      AddTxId(list, next);
      StillSent(s0, s1, s2, next);
      forall i | 0 <= i < |list|
        ensures NoneSending(db2, list[i].txId) && SentSince(s0, s2, list[i])
      {
        assert list[i].txId in TxIds(list);
        assert Touched(db0, db1, list[i].txId);
        StillSent(s0, s1, s2, list[i]);
      }
    }

    lemma AddTxId(list: seq<Attempt>, next: Attempt)
      ensures TxIds(list + [next]) == TxIds(list) + {next.txId}
    {
      var longer := list + [next];
      assert forall i :: 0 <= i < |list| ==> longer[i] == list[i];
      assert longer[|list|] == next;
      forall t | t in TxIds(list) + {next.txId}
        ensures t in TxIds(longer)
      {
        if t != next.txId {
          var i :| 0 <= i < |list| && list[i].txId == t;
          assert longer[i].txId == t;
        }
      }
    }

    /** One more transaction worked on. */
    lemma WorkedOn(busy: set<nat>, t: nat, db0: Db, db1: Db, db2: Db)
      requires Worked(KeyWorker(siblings), busy, db0, db1) && Worked(KeyWorker(siblings), {t}, db1, db2)
      ensures Worked(KeyWorker(siblings), busy + {t}, db0, db2)
      ensures forall u :: u != t && Owns(KeyWorker(siblings), db1, u) && NoneSending(db1, u) ==> NoneSending(db2, u)
    {
      WorkedWidens(KeyWorker(siblings), busy, busy + {t}, db0, db1);
      WorkedWidens(KeyWorker(siblings), {t}, busy + {t}, db1, db2);
      WorkedIsTransitive(KeyWorker(siblings), busy + {t}, db0, db1, db2);
      forall u | u != t && Owns(KeyWorker(siblings), db1, u) && NoneSending(db1, u)
        ensures NoneSending(db2, u)
      {
        assert Frozen(db1, db2, u);
      }
    }

    lemma UnfinishedStay(db: Db, db': Db, from: Address)
      requires Rely(KeyWorker(siblings), db, db') && from !in siblings
      ensures forall x :: x in UnfinishedAttempts(db, from) ==>
                x in UnfinishedAttempts(db', from) && db'.attempts[x] == db.attempts[x]
    {
      forall x | x in UnfinishedAttempts(db, from)
        ensures x in UnfinishedAttempts(db', from) && db'.attempts[x] == db.attempts[x]
      {
        var t := db.attempts[x].txId;
        assert Owns(KeyWorker(siblings), db, t) && Frozen(db, db', t) && Of(db, x, t);
      }
    }

    /** getInProgressEthTxAttempts, some time after. */
    method FindUnfinished(from: Address) returns (r: Status, list: seq<Attempt>)
      requires store.Valid() && from !in siblings
      modifies store
      ensures store.Valid() && Onward(old(store.Now()), store.Now()) && Rely(KeyWorker(siblings), old(store.db), store.db)
      ensures if r.Ok? then Loaded(store.db, from, list) else ResendFailure(gas, r.why, old(store.Now()), store.Now())
    {
      store.Interleave(KeyWorker(siblings));
      r := store.Reach();
      list := LoadUnfinished(store.db, from);
      assert Loaded(store.db, from, list) by {
        store.InvHolds();
        UnsentDiffer(store.world);
        LoadUnfinishedIsLoaded(store.db, from);
      }
    }

    /** handleAnyInProgressAttempts: a nil return means every attempt left behind was sent again and settled. */
    method HandleAnyInProgressAttempts(from: Address) returns (r: Status)
      requires store.Valid() && gas.bumpWei >= 1 && from !in siblings
      modifies store
      ensures store.Valid() && Onward(old(store.Now()), store.Now())
      ensures KeyFrame(from, old(store.db), store.db)
      ensures r.Ok? ==> NoneUnfinished(store.db, from)
      ensures r.Ok? ==> forall x :: x in old(UnfinishedAttempts(store.db, from)) ==>
                          SentSince(old(store.calls), store.calls, old(store.db).attempts[x])
      ensures r.Failed? ==> ResendFailure(gas, r.why, old(store.Now()), store.Now())
    {
      ghost var before := store.Now();
      var list;
      r, list := FindUnfinished(from);
      ghost var found := store.Now();
      if !r.Ok? {
        NothingWorkedOn(from, before.world.db, store.db);
        return;
      }
      r := HandleEach(from, list);
      WorkedIsKeyFrame(from, TxIds(list), found.world.db, store.db);
      RelyThenKeyFrame(from, before.world.db, found.world.db, store.db);
      if r.Ok? {
        AllDone(from, list, found.world.db, store.db);
        AllResent(from, list, before.world.db, found.world.db, store.db, before.calls, found.calls, store.calls);
      } else {
        ResendFailureSince(gas, r.why, before, found, store.Now());
      }
    }

    lemma NothingWorkedOn(from: Address, db: Db, db': Db)
      requires Rely(KeyWorker(siblings), db, db')
      ensures KeyFrame(from, db, db')
    {
      RelyIsWorked(KeyWorker(siblings), db, db');
      WorkedIsKeyFrame(from, {}, db, db');
    }

    lemma AllResent(from: Address, list: seq<Attempt>, db0: Db, db1: Db, db2: Db,
                    s0: seq<Call>, s1: seq<Call>, s2: seq<Call>)
      requires from !in siblings && Rely(KeyWorker(siblings), db0, db1) && Loaded(db1, from, list)
      requires Handled(list, db1, db2, s1, s2) && s0 <= s1
      ensures forall x :: x in UnfinishedAttempts(db0, from) ==> SentSince(s0, s2, db0.attempts[x])
    {
      UnfinishedStay(db0, db1, from);
      forall x | x in UnfinishedAttempts(db0, from)
        ensures SentSince(s0, s2, db0.attempts[x])
      {
        assert db1.attempts[x] in list;
        StillSent(s0, s1, s2, db0.attempts[x]);
      }
    }

    method HandleEach(from: Address, list: seq<Attempt>) returns (r: Status)
      requires store.Valid() && gas.bumpWei >= 1 && from !in siblings && Loaded(store.db, from, list)
      modifies store
      ensures store.Valid() && Onward(old(store.Now()), store.Now())
      ensures Worked(KeyWorker(siblings), TxIds(list), old(store.db), store.db)
      ensures r.Ok? ==> Handled(list, old(store.db), store.db, old(store.calls), store.calls)
      ensures r.Failed? ==> ResendFailure(gas, r.why, old(store.Now()), store.Now())
    {
      ghost var before := store.Now();
      HandledNothing(list, store.db, store.calls);
      r := Ok;
      for i := 0 to |list|
        invariant store.Valid() && Onward(before, store.Now()) && r.Ok?
        invariant Handled(list[..i], before.world.db, store.db, before.calls, store.calls)
      {
        ghost var now := store.Now();
        r := HandleNext(from, list, i, before.world.db, before.calls);
        if !r.Ok? {
          WorkedWidens(KeyWorker(siblings), TxIds(list[..i + 1]), TxIds(list), before.world.db, store.db);
          ResendFailureSince(gas, r.why, before, now, store.Now());
          return;
        }
      }
      assert list[..|list|] == list;
    }

    lemma HandledNothing(list: seq<Attempt>, db: Db, sent: seq<Call>)
      ensures Handled(list[..0], db, db, sent, sent)
    {
    }

    method HandleNext(ghost from: Address, list: seq<Attempt>, i: nat, ghost db0: Db, ghost s0: seq<Call>) returns (r: Status)
      requires store.Valid() && gas.bumpWei >= 1 && from !in siblings && i < |list| && Loaded(db0, from, list)
      requires Handled(list[..i], db0, store.db, s0, store.calls)
      modifies store
      ensures store.Valid() && Onward(old(store.Now()), store.Now())
      ensures Worked(KeyWorker(siblings), TxIds(list[..i + 1]), db0, store.db)
      ensures r.Ok? ==> Handled(list[..i + 1], db0, store.db, s0, store.calls)
      ensures r.Failed? ==> ResendFailure(gas, r.why, old(store.Now()), store.Now())
    {
      ghost var before := store.Now();
      FrozenStaysAssigned(TxIds(list[..i]), db0, before.world.db, list[i]);
      ghost var xs, quotes;
      r, xs, quotes := HandleInProgressAttempt(list[i]);
      if r.Ok? {
        HandledNext(from, list, i, db0, before.world.db, store.db, s0, before.calls, store.calls);
      } else {
        WorkedOnNext(list, i, db0, before.world.db, store.db);
        FailedToResend(gas, list[i], xs, quotes, r.why, before, store.Now());
      }
    }

    lemma HandledNext(from: Address, list: seq<Attempt>, i: nat, db0: Db, db1: Db, db2: Db, s0: seq<Call>, s1: seq<Call>, s2: seq<Call>)
      requires i < |list| && Loaded(db0, from, list) && Handled(list[..i], db0, db1, s0, s1)
      requires Worked(KeyWorker(siblings), {list[i].txId}, db1, db2) && NoneSending(db2, list[i].txId) && SentSince(s1, s2, list[i])
      ensures Handled(list[..i + 1], db0, db2, s0, s2)
    {
      HandledOneMore(list[..i], list[i], db0, db1, db2, s0, s1, s2);
      assert list[..i + 1] == list[..i] + [list[i]];
    }

    lemma WorkedOnNext(list: seq<Attempt>, i: nat, db0: Db, db1: Db, db2: Db)
      requires i < |list| && Worked(KeyWorker(siblings), TxIds(list[..i]), db0, db1) && Worked(KeyWorker(siblings), {list[i].txId}, db1, db2)
      ensures Worked(KeyWorker(siblings), TxIds(list[..i + 1]), db0, db2)
    {
      WorkedOn(TxIds(list[..i]), list[i].txId, db0, db1, db2);
      AddTxId(list[..i], list[i]);
      assert list[..i + 1] == list[..i] + [list[i]];
    }
  }
}
