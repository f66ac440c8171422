/** core/services/bulletprooftxmanager/eth_confirmer.go: one head from beginning to end.

    The source forks a worker per key and waits for all of them. The workers are verified for any
    siblings running next to them; here they run one after the other. */
module EthConfirmer {
  import opened Options
  import opened GasPrice
  import opened TxTables
  import opened TxTransactions
  import opened TxInvariant
  import opened TxInterference
  import opened TxStore
  import opened ConfirmerQueries
  import opened ConfirmerFrames
  import opened ConfirmerSending
  import opened ConfirmerBumping
  import opened ConfirmerReceipts
  import opened ConfirmerChecking
  import opened ConfirmerReorg

  const ALONE := KeyWorker({})

  ghost predicate NothingToSend(db: Db, key: Address) {
    forall t :: Handed(db, t) && db.txes[t].from == key ==> NoneSending(db, t)
  }

  /** What was left to send of key at first is still there to be sent. */
  ghost predicate StillLeft(db: Db, db': Db, key: Address) {
    forall x :: x in UnfinishedAttempts(db, key) ==> x in UnfinishedAttempts(db', key) && db'.attempts[x] == db.attempts[x]
  }

  ghost predicate Resent(db: Db, key: Address, s0: seq<Call>, s: seq<Call>) {
    forall x :: x in UnfinishedAttempts(db, key) ==> SentSince(s0, s, db.attempts[x])
  }

  /** Transactions of the keys may have been finished, the rest is as it was. */
  ghost predicate KeysFrame(keys: seq<Address>, db: Db, db': Db) {
    && (forall t :: Handed(db, t) ==> if db.txes[t].from in keys then Touched(db, db', t) else Frozen(db, db', t))
    && (forall t :: Handed(db', t) && !Handed(db, t) ==> Newcomer(ALONE, db', t))
  }

  lemma KeysFrameOneMore(keys: seq<Address>, key: Address, worker: KeyWork, db0: Db, db1: Db, db2: Db)
    requires worker.siblings == {} && KeysFrame(keys, db0, db1) && worker.KeyFrame(key, db1, db2)
    ensures KeysFrame(keys + [key], db0, db2)
  {
    forall t | Handed(db0, t)
      ensures if db0.txes[t].from in keys + [key] then Touched(db0, db2, t) else Frozen(db0, db2, t)
    {
      assert Owns(ALONE, db1, t);
      if db0.txes[t].from in keys + [key] {
        if db0.txes[t].from !in keys {
          FrozenIsTouched(db0, db1, t);
        }
        if db0.txes[t].from != key {
          FrozenIsTouched(db1, db2, t);
        }
        TouchedIsTransitive(db0, db1, db2, t);
      } else {
        FrozenIsTransitive(db0, db1, db2, t);
      }
    }
    forall t | Handed(db2, t) && !Handed(db0, t)
      ensures Newcomer(ALONE, db2, t)
    {
      assert Owns(ALONE, db2, t);
      if Owns(ALONE, db1, t) {
        if db1.txes[t].from != key {
          FrozenIsTouched(db1, db2, t);
        }
        NewcomerStays(ALONE, db1, db2, t);
      }
    }
  }

  lemma NothingToSendElsewhere(worker: KeyWork, key: Address, db: Db, db': Db, other: Address)
    requires worker.siblings == {} && worker.KeyFrame(key, db, db') && other != key && NothingToSend(db, other)
    ensures NothingToSend(db', other)
  {
    forall t | Handed(db', t) && db'.txes[t].from == other
      ensures NoneSending(db', t)
    {
      assert Owns(ALONE, db', t);
      if Owns(ALONE, db, t) {
        assert Frozen(db, db', t);
      } else {
        assert Newcomer(ALONE, db', t);
      }
    }
  }

  lemma StillLeftElsewhere(worker: KeyWork, key: Address, db0: Db, db1: Db, db2: Db, other: Address)
    requires worker.siblings == {} && worker.KeyFrame(key, db1, db2) && other != key && StillLeft(db0, db1, other)
    ensures StillLeft(db0, db2, other)
  {
    forall x | x in UnfinishedAttempts(db0, other)
      ensures x in UnfinishedAttempts(db2, other) && db2.attempts[x] == db0.attempts[x]
    {
      var t := db1.attempts[x].txId;
      assert Owns(ALONE, db1, t) && Frozen(db1, db2, t) && Of(db1, x, t);
    }
  }

  lemma NoneUnfinishedMeans(worker: KeyWork, db: Db, key: Address)
    requires worker.siblings == {}
    ensures worker.NoneUnfinished(db, key) <==> NothingToSend(db, key)
  {
    forall t
      ensures Owns(ALONE, db, t) <==> Handed(db, t)
    {
    }
  }

  /** The error that is returned when there are several. */
  ghost function FirstFailed(results: seq<Status>): Status {
    if results == [] then Ok else if results[0].Failed? then results[0] else FirstFailed(results[1..])
  }

  lemma {:induction false} FirstFailedOfMore(results: seq<Status>, result: Status)
    ensures FirstFailed(results + [result]) == if FirstFailed(results).Ok? then result else FirstFailed(results)
  {
    if results != [] {
      assert (results + [result])[1..] == results[1..] + [result];
      FirstFailedOfMore(results[1..], result);
    }
  }

  // ---- BumpGasWhereNecessary ----

  ghost predicate AllKept(db: Db, db': Db) {
    forall t :: Handed(db, t) ==> Kept(db, db', t)
  }

  lemma AllKeptTransitive(db0: Db, db1: Db, db2: Db)
    requires AllKept(db0, db1) && AllKept(db1, db2)
    ensures AllKept(db0, db2)
  {
    forall t | Handed(db0, t)
      ensures Kept(db0, db2, t)
    {
      assert Handed(db1, t);
    }
  }

  /** The row is as it was, and the attempt was sent that newAttemptWithGasBump makes for it. */
  ghost predicate Outbid(gas: GasConfig, db: Db, db': Db, t: nat, s0: seq<Call>, s: seq<Call>) {
    Kept(db, db', t) && NextWasSent(gas, db, t, s0, s)
  }

  lemma StaysOutbid(gas: GasConfig, db0: Db, db1: Db, db2: Db, t: nat, s0: seq<Call>, s1: seq<Call>, s2: seq<Call>)
    requires Outbid(gas, db0, db1, t, s0, s1) && Kept(db1, db2, t) && s0 <= s1 <= s2
    ensures Outbid(gas, db0, db2, t, s0, s2)
  {
    NextStaysSent(gas, db0, db0, t, s0, s0, s1, s2);
  }

  // ---- why it can fail ----

  /** An error of one key does not keep the others from being handled: its cause is on record at the
      time it was met. */
  ghost predicate FailedMeanwhile(gas: GasConfig, why: Problem, before: Moment, after: Moment) {
    exists now: Moment :: Onward(before, now) && Onward(now, after) && ResendFailure(gas, why, before, now)
  }

  lemma FailedInBetween(gas: GasConfig, why: Problem, earlier: Moment, before: Moment, after: Moment, later: Moment)
    requires FailedMeanwhile(gas, why, before, after) && Onward(earlier, before) && Onward(after, later)
    ensures FailedMeanwhile(gas, why, earlier, later)
  {
    var now: Moment :| Onward(before, now) && Onward(now, after) && ResendFailure(gas, why, before, now);
    ResendFailureSince(gas, why, earlier, before, now);
  }

  lemma FailedIsNotRejected(gas: GasConfig, why: Problem, before: Moment, after: Moment)
    requires FailedMeanwhile(gas, why, before, after)
    ensures !why.Rejected?
  {
  }

  lemma FailedNow(gas: GasConfig, why: Problem, before: Moment, after: Moment)
    requires ResendFailure(gas, why, before, after) && Onward(before, after)
    ensures FailedMeanwhile(gas, why, before, after)
  {
  }

  /** A refused signature, or an answer that neither settles the attempt nor leaves it for good. */
  predicate Trouble(c: Call) {
    match c
    case Signature(_, signed) => !signed
    case Sent(x) => LeavesOpen(Classified(x.raw)) || AsksForMore(Classified(x.raw))
    case _ => false
  }

  /** With the database within reach, every signature granted and every attempt settled at once,
      nothing fails. */
  lemma NoTroubleNoFailure(gas: GasConfig, why: Problem, before: Moment, after: Moment)
    requires FailedMeanwhile(gas, why, before, after)
    ensures before.outages < after.outages || exists i :: |before.calls| <= i < |after.calls| && Trouble(after.calls[i])
  {
    var now: Moment :| Onward(before, now) && Onward(now, after) && ResendFailure(gas, why, before, now);
    if !why.DbFailure? {
      var n := |now.calls| - 1;
      assert after.calls[n] == now.calls[n];
      if now.calls[n].Quote? {
        assert after.calls[n - 1] == now.calls[n - 1];
      }
    }
  }

  lemma KeptByBumping(worker: KeyWork, key: Address, busy: set<nat>, db0: Db, queried: Db, db1: Db)
    requires worker.siblings == {} && worker.KeyFrame(key, db0, queried) && Reworked(ALONE, busy, queried, db1)
    ensures AllKept(db0, queried) && AllKept(db0, db1)
  {
    forall t | Handed(db0, t)
      ensures Kept(db0, queried, t) && Kept(db0, db1, t)
    {
      assert Owns(ALONE, db0, t);
      assert Owns(ALONE, queried, t);
    }
  }

  // ---- EnsureConfirmedTransactionsInLongestChain ----

  /** The chain has the block that the answer named. */
  ghost predicate NamesBlockOf(head: Head, q: Inquiry) {
    exists h :: h in Chain(head) && q.answer.Got? && q.answer.blockHash == h.hash && q.answer.blockNumber == Some(h.number)
  }

  /** Whether a transaction that was just confirmed counts as re-orged is decided by the block the node
      named, provided its number is in the known part of the chain and its attempt is not being sent. */
  lemma FoundIsInChainIff(db: Db, db': Db, t: nat, q: Inquiry, head: Head)
    requires ConfirmedBy(db, db', t, q)
    ensures OutOfChain(db', t, head) <==>
              !NamesBlockOf(head, q) && q.answer.blockNumber.value >= Bottom(head) && db'.attempts[q.attempt].state == Broadcast
  {
    var r :| Receipted(db, db', t, r) && Witnesses(r, q);
    forall h
      ensures Matches(r, h) <==> q.answer.blockHash == h.hash && q.answer.blockNumber == Some(h.number)
    {
    }
    assert InChain(r, head) <==> NamesBlockOf(head, q);
    forall s
      ensures ConfirmedRow(db', t, s, Bottom(head)) ==> s == r
    {
    }
    assert Of(db', r.attempt, t);
    assert ConfirmedRow(db', t, r, Bottom(head)) <==>
      q.answer.blockNumber.value >= Bottom(head) && db'.attempts[q.attempt].state == Broadcast;
  }

  /** A receipt that the query does not find, in the chain or not, because its attempt is about to be
      sent again. */
  ghost predicate Overlooked(db: Db, t: nat, rc: Receipt, keys: seq<Address>) {
    && Handed(db, t) && db.txes[t].from in keys
    && rc in db.receipts && Of(db, rc.attempt, t) && db.attempts[rc.attempt].state == Sending
  }

  lemma OverlookedIsSpared(db0: Db, db1: Db, t: nat, rc: Receipt, keys: seq<Address>, head: Head, done: set<nat>)
    requires JudgedFrame(done, db0, db1, head) && Overlooked(db0, t, rc, keys) && ReceiptsOk(db0, t)
    ensures !OutOfChain(db0, t, head) && Frozen(db0, db1, t)
  {
    assert forall r :: r in db0.receipts && Of(db0, r.attempt, t) ==> r == rc;
  }

  lemma SentAgainIsConfirmed(db: Db, db': Db, t: nat, rc: Receipt, height: int)
    requires rc.attempt in db.attempts && Applies(db, SaveSentAttempt(db.attempts[rc.attempt]), db')
    requires In(db, t, Confirmed) && rc in db.receipts && Of(db, rc.attempt, t) && rc.blockNumber >= height
    ensures ConfirmedRow(db', t, rc, height)
  {
  }

  /** What is overlooked comes back: the marking spares it, and once its attempt counts as sent it is a
      confirmed row again, in the chain or not. */
  lemma OverlookedComesBack(db0: Db, db1: Db, db2: Db, db3: Db, db4: Db, t: nat, rc: Receipt, keys: seq<Address>, head: Head, done: set<nat>)
    requires Overlooked(db0, t, rc, keys) && ReceiptsOk(db0, t) && rc.blockNumber >= Bottom(head)
    requires JudgedFrame(done, db0, db1, head) && Frozen(db1, db2, t)
    requires rc.attempt in db2.attempts && Applies(db2, SaveSentAttempt(db2.attempts[rc.attempt]), db3) && Frozen(db3, db4, t)
    ensures ConfirmedRow(db4, t, rc, Bottom(head))
  {
    OverlookedIsSpared(db0, db1, t, rc, keys, head, done);
    FrozenIsTransitive(db0, db1, db2, t);
    assert Of(db2, rc.attempt, t) && rc in db2.receipts;
    SentAgainIsConfirmed(db2, db3, t, rc, Bottom(head));
    assert Of(db4, rc.attempt, t);
  }

  class Confirmer {
    const store: Store
    const gas: GasConfig
    const threshold: int
    const depth: int
    const finalityDepth: int

    constructor (store: Store, gas: GasConfig, threshold: int, depth: int, finalityDepth: int)
      ensures this.store == store && this.gas == gas
      ensures this.threshold == threshold && this.depth == depth && this.finalityDepth == finalityDepth
    {
      this.store, this.gas := store, gas;
      this.threshold, this.depth, this.finalityDepth := threshold, depth, finalityDepth;
    }

    /** One worker of HandleKeys, from its beginning to its end. */
    ghost predicate KeyHandled(key: Address, result: Status, before: Moment, after: Moment) {
      && Onward(before, after)
      && if result.Ok? then NothingToSend(after.world.db, key) && Resent(before.world.db, key, before.calls, after.calls)
         else ResendFailure(gas, result.why, before, after)
    }

    /** One worker after the other, whatever the ones before came back with. */
    ghost predicate AllHandled(keys: seq<Address>, results: seq<Status>, moments: seq<Moment>) {
      && |results| == |keys| && |moments| == |keys| + 1
      && forall i :: 0 <= i < |keys| ==> KeyHandled(keys[i], results[i], moments[i], moments[i + 1])
    }

    /** The second half of EnsureConfirmedTransactionsInLongestChain; an error of one key does not
        keep the others from being handled. */
    method HandleKeys(keys: seq<Address>) returns (r: Status, ghost results: seq<Status>, ghost moments: seq<Moment>)
      requires store.Valid() && gas.bumpWei >= 1
      modifies store
      ensures store.Valid() && Onward(old(store.Now()), store.Now())
      ensures KeysFrame(keys, old(store.db), store.db)
      ensures r.Ok? ==> forall key :: key in keys ==> NothingToSend(store.db, key) && Resent(old(store.db), key, old(store.calls), store.calls)
      ensures r.Failed? ==> FailedMeanwhile(gas, r.why, old(store.Now()), store.Now())
      ensures AllHandled(keys, results, moments) && moments[0] == old(store.Now()) && moments[|keys|] == store.Now()
      ensures r == FirstFailed(results)
    {
      ghost var before := store.Now();
      r, results, moments := Ok, [], [before];
      var worker := new KeyWork(store, gas, {});
      for i := 0 to |keys|
        invariant store.Valid() && Onward(before, store.Now())
        invariant Progress(keys[..i], r.Ok?, before.world.db, store.db, before.calls, store.calls)
        invariant r.Failed? ==> FailedMeanwhile(gas, r.why, before, store.Now())
        invariant AllHandled(keys[..i], results, moments) && moments[0] == before && moments[i] == store.Now() && r == FirstFailed(results)
      {
        assert keys[..i + 1] == keys[..i] + [keys[i]];
        ghost var result;
        r, result := HandleKey(worker, keys[..i], keys[i], r, before);
        OneMoreHandled(keys[..i], results, moments, keys[i], result, store.Now());
        results, moments := results + [result], moments + [store.Now()];
      }
      assert keys[..|keys|] == keys;
    }

    ghost predicate Progress(handled: seq<Address>, fine: bool, db0: Db, db: Db, s0: seq<Call>, s: seq<Call>) {
      && s0 <= s && KeysFrame(handled, db0, db)
      && (forall key :: key !in handled ==> StillLeft(db0, db, key))
      && (fine ==> forall key :: key in handled ==> NothingToSend(db, key) && Resent(db0, key, s0, s))
    }

    method HandleKey(worker: KeyWork, ghost handled: seq<Address>, key: Address, sofar: Status, ghost before: Moment)
      returns (r: Status, ghost result: Status)
      requires store.Valid() && gas.bumpWei >= 1 && worker.store == store && worker.gas == gas && worker.siblings == {}
      requires Onward(before, store.Now()) && Progress(handled, sofar.Ok?, before.world.db, store.db, before.calls, store.calls)
      requires sofar.Failed? ==> FailedMeanwhile(gas, sofar.why, before, store.Now())
      modifies store
      ensures store.Valid() && Onward(old(store.Now()), store.Now())
      ensures Progress(handled + [key], r.Ok?, before.world.db, store.db, before.calls, store.calls)
      ensures r.Failed? ==> FailedMeanwhile(gas, r.why, before, store.Now())
      ensures KeyHandled(key, result, old(store.Now()), store.Now()) && r == if sofar.Ok? then result else sofar
    {
      ghost var now := store.Now();
      var error := worker.HandleAnyInProgressAttempts(key);
      r, result := if sofar.Ok? then error else sofar, error;
      FirstFailure(sofar, error, before, now, store.Now());
      NoneUnfinishedMeans(worker, store.db, key);
      HandledOneMore(worker, handled, key, r.Ok?, before.world.db, now.world.db, store.db, before.calls, now.calls, store.calls);
    }

    lemma OneMoreHandled(keys: seq<Address>, results: seq<Status>, moments: seq<Moment>, key: Address, result: Status, after: Moment)
      requires AllHandled(keys, results, moments) && KeyHandled(key, result, moments[|keys|], after)
      ensures AllHandled(keys + [key], results + [result], moments + [after])
      ensures FirstFailed(results + [result]) == if FirstFailed(results).Ok? then result else FirstFailed(results)
    {
      FirstFailedOfMore(results, result);
    }

    /** The first error is returned. */
    lemma FirstFailure(sofar: Status, result: Status, before: Moment, now: Moment, after: Moment)
      requires Onward(before, now) && Onward(now, after)
      requires sofar.Failed? ==> FailedMeanwhile(gas, sofar.why, before, now)
      requires result.Failed? ==> ResendFailure(gas, result.why, now, after)
      ensures var r := if sofar.Ok? then result else sofar; r.Failed? ==> FailedMeanwhile(gas, r.why, before, after)
    {
      if sofar.Failed? {
        FailedInBetween(gas, sofar.why, before, before, now, after);
      } else if result.Failed? {
        ResendFailureSince(gas, result.why, before, now, after);
        FailedNow(gas, result.why, before, after);
      }
    }

    lemma HandledOneMore(worker: KeyWork, handled: seq<Address>, key: Address, fine: bool, db0: Db, db1: Db, db2: Db,
                         s0: seq<Call>, s1: seq<Call>, s2: seq<Call>)
      requires worker.siblings == {} && worker.KeyFrame(key, db1, db2) && s1 <= s2
      requires Progress(handled, fine, db0, db1, s0, s1)
      requires fine ==> worker.NoneUnfinished(db2, key) && Resent(db1, key, s1, s2)
      ensures Progress(handled + [key], fine, db0, db2, s0, s2)
    {
      KeysFrameOneMore(handled, key, worker, db0, db1, db2);
      forall other | other !in handled + [key]
        ensures StillLeft(db0, db2, other)
      {
        StillLeftElsewhere(worker, key, db0, db1, db2, other);
      }
      if fine {
        NoneUnfinishedMeans(worker, db2, key);
        forall other | other in handled + [key]
          ensures NothingToSend(db2, other) && Resent(db0, other, s0, s2)
        {
          HandledStays(worker, handled, key, db0, db1, db2, s0, s1, s2, other);
        }
      }
    }

    lemma HandledStays(worker: KeyWork, handled: seq<Address>, key: Address, db0: Db, db1: Db, db2: Db,
                       s0: seq<Call>, s1: seq<Call>, s2: seq<Call>, other: Address)
      requires worker.siblings == {} && Progress(handled, true, db0, db1, s0, s1) && worker.KeyFrame(key, db1, db2)
      requires NothingToSend(db2, key) && Resent(db1, key, s1, s2) && s1 <= s2 && other in handled + [key]
      ensures NothingToSend(db2, other) && Resent(db0, other, s0, s2)
    {
      if other != key {
        NothingToSendElsewhere(worker, key, db1, db2, other);
      }
      forall x | x in UnfinishedAttempts(db0, other)
        ensures SentSince(s0, s2, db0.attempts[x])
      {
        StillSent(s0, s1, s2, db0.attempts[x]);
      }
    }

    /** Everything that the query would find for key in db was resent or outbid since. */
    ghost predicate AllOutbid(db: Db, db': Db, key: Address, blockHeight: int, s0: seq<Call>, s: seq<Call>) {
      forall t :: t in RequiringNewAttempt(db, key, blockHeight, threshold, depth) ==> Outbid(gas, db, db', t, s0, s)
    }

    /** The transactions of other keys are as they were. */
    ghost predicate OthersUntouched(keys: seq<Address>, db: Db, db': Db) {
      forall t :: Handed(db, t) && db.txes[t].from !in keys ==> Frozen(db, db', t)
    }

    /** One worker of BumpGasWhereNecessary, from its beginning to its end. */
    ghost predicate KeyBumped(key: Address, blockHeight: int, result: Status, before: Moment, after: Moment) {
      && Onward(before, after)
      && if result.Ok? then
           && NothingToSend(after.world.db, key)
           && forall t :: t in RequiringNewAttempt(before.world.db, key, blockHeight, threshold, depth) ==>
                Rebid(gas, before.world.db, after.world.db, t, before.calls, after.calls)
         else ResendFailure(gas, result.why, before, after)
    }

    ghost predicate AllBumped(keys: seq<Address>, blockHeight: int, results: seq<Status>, moments: seq<Moment>) {
      && |results| == |keys| && |moments| == |keys| + 1
      && forall i :: 0 <= i < |keys| ==> KeyBumped(keys[i], blockHeight, results[i], moments[i], moments[i + 1])
    }

    lemma OneMoreBumped(keys: seq<Address>, blockHeight: int, results: seq<Status>, moments: seq<Moment>,
                        key: Address, result: Status, after: Moment)
      requires AllBumped(keys, blockHeight, results, moments) && KeyBumped(key, blockHeight, result, moments[|keys|], after)
      ensures AllBumped(keys + [key], blockHeight, results + [result], moments + [after])
      ensures FirstFailed(results + [result]) == if FirstFailed(results).Ok? then result else FirstFailed(results)
    {
      FirstFailedOfMore(results, result);
    }

    /** BumpGasWhereNecessary. On nil, everything that was due on entry was resent or outbid; an error of
        one key does not keep the others from being bumped. */
    method BumpGasWhereNecessary(keys: seq<Address>, blockHeight: int)
      returns (r: Status, ghost results: seq<Status>, ghost moments: seq<Moment>)
      requires store.Valid() && gas.bumpWei >= 1
      modifies store
      ensures store.Valid() && Onward(old(store.Now()), store.Now())
      ensures AllKept(old(store.db), store.db) && (depth > 0 ==> OthersUntouched(keys, old(store.db), store.db))
      ensures r.Ok? ==> forall key :: key in keys ==>
                NothingToSend(store.db, key) && AllOutbid(old(store.db), store.db, key, blockHeight, old(store.calls), store.calls)
      ensures r.Failed? ==> FailedMeanwhile(gas, r.why, old(store.Now()), store.Now())
      ensures AllBumped(keys, blockHeight, results, moments) && moments[0] == old(store.Now()) && moments[|keys|] == store.Now()
      ensures r == FirstFailed(results)
    {
      ghost var before := store.Now();
      r, results, moments := Ok, [], [before];
      var worker := new KeyWork(store, gas, {});
      var bumper := new GasBumping(worker);
      for i := 0 to |keys|
        invariant store.Valid() && Onward(before, store.Now()) && store.Was(before.log, before.world)
        invariant BumpProgress(keys[..i], r.Ok?, blockHeight, before.world.db, store.db, before.calls, store.calls)
        invariant r.Failed? ==> FailedMeanwhile(gas, r.why, before, store.Now())
        invariant AllBumped(keys[..i], blockHeight, results, moments)
        invariant moments[0] == before && moments[i] == store.Now() && r == FirstFailed(results)
      {
        assert keys[..i + 1] == keys[..i] + [keys[i]];
        ghost var result;
        r, result := BumpKey(bumper, keys[..i], keys[i], blockHeight, r, before);
        OneMoreBumped(keys[..i], blockHeight, results, moments, keys[i], result, store.Now());
        results, moments := results + [result], moments + [store.Now()];
      }
      assert keys[..|keys|] == keys;
    }

    ghost predicate BumpProgress(bumped: seq<Address>, fine: bool, blockHeight: int, db0: Db, db: Db, s0: seq<Call>, s: seq<Call>) {
      && s0 <= s && AllKept(db0, db) && (depth > 0 || bumped == [] ==> OthersUntouched(bumped, db0, db))
      && (fine ==> forall key :: key in bumped ==> NothingToSend(db, key) && AllOutbid(db0, db, key, blockHeight, s0, s))
    }

    method BumpKey(bumper: GasBumping, ghost bumped: seq<Address>, key: Address, blockHeight: int, sofar: Status, ghost before: Moment)
      returns (r: Status, ghost result: Status)
      requires store.Valid() && gas.bumpWei >= 1 && store.Was(before.log, before.world) && Onward(before, store.Now())
      requires bumper.worker.store == store && bumper.worker.gas == gas && bumper.worker.siblings == {}
      requires BumpProgress(bumped, sofar.Ok?, blockHeight, before.world.db, store.db, before.calls, store.calls)
      requires sofar.Failed? ==> FailedMeanwhile(gas, sofar.why, before, store.Now())
      modifies store
      ensures store.Valid() && Onward(old(store.Now()), store.Now())
      ensures BumpProgress(bumped + [key], r.Ok?, blockHeight, before.world.db, store.db, before.calls, store.calls)
      ensures r.Failed? ==> FailedMeanwhile(gas, r.why, before, store.Now())
      ensures KeyBumped(key, blockHeight, result, old(store.Now()), store.Now()) && r == if sofar.Ok? then result else sofar
    {
      ghost var now := store.Now();
      var error;
      ghost var l, queried, sq;
      error, l, queried, sq := bumper.BumpGasWhereNecessary(key, blockHeight, threshold, depth);
      r, result := if sofar.Ok? then error else sofar, error;
      FirstFailure(sofar, error, before, now, store.Now());
      NoneUnfinishedMeans(bumper.worker, store.db, key);
      ghost var db0, db1 := before.world.db, now.world.db;
      KeptByBumping(bumper.worker, key, IdSet(RequiringNewAttempt(queried.db, key, blockHeight, threshold, depth)), db1, queried.db, store.db);
      AllKeptTransitive(db0, db1, store.db);
      if depth > 0 {
        OthersStayUntouched(bumper.worker, bumped, key, blockHeight, db0, l, db1, queried, store.db);
      }
      if r.Ok? {
        KeyIsOutbid(bumper, bumped, key, blockHeight, before.log, before.world, now.log, now.world, store.db,
                    before.calls, now.calls, store.calls);
        OthersStayBumped(bumper.worker, bumped, blockHeight, db0, db1, store.db, before.calls, now.calls, store.calls);
      }
    }

    lemma OthersStayUntouched(worker: KeyWork, bumped: seq<Address>, key: Address, blockHeight: int,
                              db0: Db, l: seq<Transaction>, db1: Db, queried: World, db2: Db)
      requires worker.siblings == {} && depth > 0 && OthersUntouched(bumped, db0, db1) && worker.KeyFrame(key, db1, queried.db)
      requires store.Was(l, queried)
      requires Reworked(ALONE, IdSet(RequiringNewAttempt(queried.db, key, blockHeight, threshold, depth)), queried.db, db2)
      ensures OthersUntouched(bumped + [key], db0, db2)
    {
      store.WasLater(l, queried, l, queried);
      forall t | Handed(db0, t) && db0.txes[t].from !in bumped + [key]
        ensures Frozen(db0, db2, t)
      {
        assert Owns(ALONE, db1, t) && Frozen(db1, queried.db, t) && Owns(ALONE, queried.db, t);
        RequiringNewAttemptMeans(queried, key, blockHeight, threshold, depth, t);
        FrozenIsTransitive(db0, db1, queried.db, t);
        FrozenIsTransitive(db0, queried.db, db2, t);
      }
    }

    /** What was due for key at first still is when its turn comes, or another worker, who then looks
        at all keys alike, already saw to it. */
    lemma KeyIsOutbid(bumper: GasBumping, bumped: seq<Address>, key: Address, blockHeight: int,
                      l0: seq<Transaction>, w0: World, l1: seq<Transaction>, w1: World, db2: Db,
                      s0: seq<Call>, s1: seq<Call>, s2: seq<Call>)
      requires bumper.worker.gas == gas && BumpProgress(bumped, true, blockHeight, w0.db, w1.db, s0, s1) && s1 <= s2 && AllKept(w1.db, db2)
      requires store.Was(l0, w0) && store.Was(l1, w1) && l0 <= l1
      requires forall t :: t in RequiringNewAttempt(w1.db, key, blockHeight, threshold, depth) ==> Rebid(gas, w1.db, db2, t, s1, s2)
      ensures AllOutbid(w0.db, db2, key, blockHeight, s0, s2)
    {
      if key in bumped {
        OutbidStays(w0.db, w1.db, db2, key, blockHeight, s0, s1, s2);
      } else if depth <= 0 && bumped != [] {
        assert RequiringNewAttempt(w0.db, key, blockHeight, threshold, depth)
            == RequiringNewAttempt(w0.db, bumped[0], blockHeight, threshold, depth);
        OutbidStays(w0.db, w1.db, db2, bumped[0], blockHeight, s0, s1, s2);
      } else {
        store.WasLater(l0, w0, l1, w1);
        forall t | t in RequiringNewAttempt(w0.db, key, blockHeight, threshold, depth)
          ensures Outbid(gas, w0.db, db2, t, s0, s2)
        {
          StillDue(bumped, key, blockHeight, w0, w1, t);
          bumper.RebidSince(w0.db, w1.db, db2, t, s0, s1, s2);
        }
      }
    }

    lemma StillDue(bumped: seq<Address>, key: Address, blockHeight: int, w0: World, w1: World, t: nat)
      requires Inv(w0) && Inv(w1) && Later(w0, w1) && AllKept(w0.db, w1.db) && OthersUntouched(bumped, w0.db, w1.db)
      requires key !in bumped && (depth > 0 || bumped == [])
      requires t in RequiringNewAttempt(w0.db, key, blockHeight, threshold, depth)
      ensures t in RequiringNewAttempt(w1.db, key, blockHeight, threshold, depth) && Kept(w0.db, w1.db, t) && SameAttempts(w0.db, w1.db, t)
    {
      RequiringNewAttemptMeans(w0, key, blockHeight, threshold, depth, t);
      assert Handed(w0.db, t) && Frozen(w0.db, w1.db, t);
      StillFound(w0, w1, key, blockHeight, threshold, depth, t);
    }

    lemma OutbidStays(db0: Db, db1: Db, db2: Db, key: Address, blockHeight: int, s0: seq<Call>, s1: seq<Call>, s2: seq<Call>)
      requires AllOutbid(db0, db1, key, blockHeight, s0, s1) && AllKept(db1, db2) && s0 <= s1 <= s2
      ensures AllOutbid(db0, db2, key, blockHeight, s0, s2)
    {
      forall t | t in RequiringNewAttempt(db0, key, blockHeight, threshold, depth)
        ensures Outbid(gas, db0, db2, t, s0, s2)
      {
        FoundIff(db0, key, blockHeight, threshold, depth, t);
        assert Handed(db1, t);
        StaysOutbid(gas, db0, db1, db2, t, s0, s1, s2);
      }
    }

    lemma OthersStayBumped(worker: KeyWork, bumped: seq<Address>, blockHeight: int, db0: Db, db1: Db, db2: Db,
                           s0: seq<Call>, s1: seq<Call>, s2: seq<Call>)
      requires worker.siblings == {} && BumpProgress(bumped, true, blockHeight, db0, db1, s0, s1) && AllKept(db1, db2) && s1 <= s2
      requires forall a :: worker.NoneUnfinished(db1, a) ==> worker.NoneUnfinished(db2, a)
      ensures forall other :: other in bumped ==> NothingToSend(db2, other) && AllOutbid(db0, db2, other, blockHeight, s0, s2)
    {
      forall other | other in bumped
        ensures NothingToSend(db2, other) && AllOutbid(db0, db2, other, blockHeight, s0, s2)
      {
        NoneUnfinishedMeans(worker, db1, other);
        NoneUnfinishedMeans(worker, db2, other);
        OutbidStays(db0, db1, db2, other, blockHeight, s0, s1, s2);
      }
    }

    // ---- EnsureConfirmedTransactionsInLongestChain and processHead ----

    /** t went back to unconfirmed: no receipt, every attempt but the dearest as it was, and that
        one is sent again at the same price if its key is ours. */
    ghost predicate Reorged(db: Db, db': Db, t: nat, keys: seq<Address>, s0: seq<Call>, s: seq<Call>) {
      && In(db, t, Confirmed) && t in db'.txes && db'.txes[t] == db.txes[t].(state := Unconfirmed)
      && (forall rc :: rc in db'.receipts ==> !Of(db', rc.attempt, t))
      && (exists top ::
            && Of(db, top, t) && (forall x :: Of(db, x, t) ==> db.attempts[x].price <= db.attempts[top].price)
            && (forall x :: Of(db, x, t) && x != top ==> Of(db', x, t) && db'.attempts[x] == db.attempts[x])
            && (db.txes[t].from in keys ==> NoneSending(db', t) && SentSince(s0, s, db.attempts[top].(stamp := None, state := Sending))))
    }

    lemma ReorgedAndLeft(db0: Db, db1: Db, db2: Db, t: nat, keys: seq<Address>, s0: seq<Call>, s: seq<Call>)
      requires Rebroadcast(db0, db1, t) && Frozen(db1, db2, t) && db0.txes[t].from !in keys
      ensures Reorged(db0, db2, t, keys, s0, s)
    {
      RebroadcastThenFrozen(db0, db1, db2, t);
      var top :| Reset(db0, db2, t, top);
    }

    lemma ReorgedAndSent(db0: Db, db1: Db, db2: Db, t: nat, keys: seq<Address>, s0: seq<Call>, s: seq<Call>, top: nat)
      requires Rebroadcast(db0, db1, t) && Reset(db0, db1, t, top) && PricesOk(db0, t)
      requires Touched(db1, db2, t) && NoneSending(db2, t) && SentSince(s0, s, db1.attempts[top])
      ensures Reorged(db0, db2, t, keys, s0, s)
    {
      forall x: nat | Of(db0, x, t) && x != top
        ensures Of(db2, x, t) && db2.attempts[x] == db0.attempts[x]
      {
        assert db0.attempts[x].state == Broadcast && Of(db1, x, t) && db1.attempts[x] == db0.attempts[x];
      }
    }

    lemma ReorgedThenHandled(db0: Db, db1: Db, db2: Db, t: nat, keys: seq<Address>, s0: seq<Call>, s1: seq<Call>, s2: seq<Call>)
      requires Rebroadcast(db0, db1, t) && PricesOk(db0, t) && KeysFrame(keys, db1, db2) && s0 <= s1 <= s2
      requires forall key :: key in keys ==> NothingToSend(db2, key) && Resent(db1, key, s1, s2)
      ensures Reorged(db0, db2, t, keys, s0, s2)
    {
      assert Handed(db1, t);
      if db0.txes[t].from !in keys {
        ReorgedAndLeft(db0, db1, db2, t, keys, s0, s2);
      } else {
        var top :| Reset(db0, db1, t, top);
        assert top in UnfinishedAttempts(db1, db0.txes[t].from);
        assert Handed(db2, t);
        StillSent(s0, s1, s2, db1.attempts[top]);
        ReorgedAndSent(db0, db1, db2, t, keys, s0, s2, top);
      }
    }

    /** A row that a receipt confirms after the marking and the resending. */
    lemma StillConfirmed(db0: Db, db1: Db, db2: Db, head: Head, keys: seq<Address>, done: set<nat>, t: nat, rc: Receipt)
      requires JudgedFrame(done, db0, db1, head) && KeysFrame(keys, db1, db2) && ConfirmedRow(db2, t, rc, Bottom(head))
      requires forall u, s :: ConfirmedRow(db1, u, s, Bottom(head)) ==> InChain(s, head)
      ensures InChain(rc, head) || Overlooked(db0, t, rc, keys)
    {
      assert Handed(db2, t);
      assert Handed(db1, t) || Newcomer(ALONE, db2, t);
      if db1.txes[t].from !in keys {
        assert Frozen(db1, db2, t) && Of(db2, rc.attempt, t);
        assert ConfirmedRow(db1, t, rc, Bottom(head));
      } else {
        assert Touched(db1, db2, t) && Of(db1, rc.attempt, t);
        if db1.attempts[rc.attempt].state == Sending {
          WasSending(db0, db1, head, done, t, rc);
        } else {
          assert ConfirmedRow(db1, t, rc, Bottom(head));
        }
      }
    }

    lemma WasSending(db0: Db, db1: Db, head: Head, done: set<nat>, t: nat, rc: Receipt)
      requires JudgedFrame(done, db0, db1, head) && Handed(db1, t) && db1.txes[t].state != Unconfirmed
      requires rc in db1.receipts && Of(db1, rc.attempt, t) && db1.attempts[rc.attempt].state == Sending
      ensures Handed(db0, t) && Frozen(db0, db1, t) && rc in db0.receipts && Of(db0, rc.attempt, t)
      ensures db0.attempts[rc.attempt] == db1.attempts[rc.attempt]
    {
      assert Handed(db0, t) || Newcomer(ConfirmerMain, db1, t);
      assert Frozen(db0, db1, t) || Rebroadcast(db0, db1, t);
    }

    /** EnsureConfirmedTransactionsInLongestChain, on success: what the chain does not confirm any
        more was put back and sent again, everything else at most had an unfinished attempt
        finished, and every receipt left that was not overlooked is in the chain. */
    method EnsureConfirmedTransactionsInLongestChain(keys: seq<Address>, head: Head) returns (r: Status)
      requires store.Valid() && gas.bumpWei >= 1
      modifies store
      ensures store.Valid() && Onward(old(store.Now()), store.Now())
      ensures r.Ok? ==> forall t, rc :: ConfirmedRow(store.db, t, rc, Bottom(head)) ==>
                InChain(rc, head) || Overlooked(old(store.db), t, rc, keys)
      ensures r.Ok? ==> forall t :: Handed(old(store.db), t) ==>
                if OutOfChain(old(store.db), t, head) then Reorged(old(store.db), store.db, t, keys, old(store.calls), store.calls)
                else Frozen(old(store.db), store.db, t) || (old(store.db).txes[t].from in keys && Touched(old(store.db), store.db, t))
      ensures r.Ok? ==> forall key :: key in keys ==> NothingToSend(store.db, key)
      ensures r.Failed? ==> if r.why.Rejected? then r.why.why == TopNotBroadcast && Unbroadcastable(old(store.db), head)
                            else FailedMeanwhile(gas, r.why, old(store.Now()), store.Now())
    {
      ghost var done;
      ghost var before := store.Now();
      var marking := new Reorg(store);
      assert forall t :: t in store.db.txes ==> PricesOk(store.db, t) by {
        store.InvHolds();
        assert forall t :: t in store.db.txes ==> TxOk(store.world, t);
      }
      r, done := marking.MarkReorged(head);
      ghost var marked := store.Now();
      if !r.Ok? {
        if r.why.DbFailure? {
          FailedNow(gas, r.why, before, marked);
        }
        return;
      }
      ghost var results, moments;
      r, results, moments := HandleKeys(keys);
      if r.Ok? {
        EverythingEnsured(before.world.db, marked.world.db, store.db, head, keys, done, before.calls, marked.calls, store.calls);
      } else {
        FailedInBetween(gas, r.why, before, marked, store.Now(), store.Now());
        FailedIsNotRejected(gas, r.why, before, store.Now());
      }
    }

    lemma EverythingEnsured(db0: Db, db1: Db, db2: Db, head: Head, keys: seq<Address>, done: set<nat>,
                            s0: seq<Call>, s1: seq<Call>, s2: seq<Call>)
      requires forall t :: t in db0.txes ==> PricesOk(db0, t)
      requires JudgedFrame(done, db0, db1, head) && (forall t :: Handed(db0, t) ==> Judged(db0, db1, t, head))
      requires forall t, rc :: ConfirmedRow(db1, t, rc, Bottom(head)) ==> InChain(rc, head)
      requires KeysFrame(keys, db1, db2) && s0 <= s1 <= s2
      requires forall key :: key in keys ==> NothingToSend(db2, key) && Resent(db1, key, s1, s2)
      ensures forall t, rc :: ConfirmedRow(db2, t, rc, Bottom(head)) ==> InChain(rc, head) || Overlooked(db0, t, rc, keys)
      ensures forall t :: Handed(db0, t) ==>
                if OutOfChain(db0, t, head) then Reorged(db0, db2, t, keys, s0, s2)
                else Frozen(db0, db2, t) || (db0.txes[t].from in keys && Touched(db0, db2, t))
    {
      forall t, rc | ConfirmedRow(db2, t, rc, Bottom(head))
        ensures InChain(rc, head) || Overlooked(db0, t, rc, keys)
      {
        StillConfirmed(db0, db1, db2, head, keys, done, t, rc);
      }
      forall t | Handed(db0, t)
        ensures if OutOfChain(db0, t, head) then Reorged(db0, db2, t, keys, s0, s2)
                else Frozen(db0, db2, t) || (db0.txes[t].from in keys && Touched(db0, db2, t))
      {
        if OutOfChain(db0, t, head) {
          ReorgedThenHandled(db0, db1, db2, t, keys, s0, s1, s2);
        } else {
          HandledAfterFrozen(db0, db1, db2, t, keys);
        }
      }
    }

    lemma HandledAfterFrozen(db0: Db, db1: Db, db2: Db, t: nat, keys: seq<Address>)
      requires Handed(db0, t) && Frozen(db0, db1, t) && KeysFrame(keys, db1, db2)
      ensures Frozen(db0, db2, t) || (db0.txes[t].from in keys && Touched(db0, db2, t))
    {
      assert Handed(db1, t);
      if db0.txes[t].from in keys {
        FrozenIsTouched(db0, db1, t);
        TouchedIsTransitive(db0, db1, db2, t);
      } else {
        FrozenIsTransitive(db0, db1, db2, t);
      }
    }

    // ---- processHead ----

    /** The first step: every broadcast attempt without a stamp gets the head's number. */
    ghost predicate HeadStamped(head: Head, before: Moment, after: Moment) {
      && Onward(before, after) && before.log < after.log && after.log[|after.log| - 1] == SetBroadcastBefore(head.number)
      && Stamping(before.world.db, after.world.db, head.number)
    }

    /** The second: who waits is asked about, and confirmed, marked as overtaken or given up. */
    ghost predicate ReceiptsChecked(head: Head, before: Moment, after: Moment) {
      && Onward(before, after)
      && (forall t :: Handed(before.world.db, t) ==> Checked(before.world.db, after.world, t, head.number - finalityDepth))
      && AllInquired(before.world.db, after.world.db, before.asked, after.asked, after.outages - before.outages)
      && NoneOvertaken(before.world.db, after.world.db)
      && (head.number > finalityDepth ==>
            forall t :: Handed(before.world.db, t) && In(after.world.db, t, ConfirmedMissingReceipt) ==>
              !Buried(after.world.db, t, head.number - finalityDepth))
    }

    /** What the node places in a block of this head's chain is confirmed, and not taken for re-orged. */
    lemma FoundInChainIsKept(head: Head, before: Moment, after: Moment, t: nat, qs: seq<Inquiry>)
      requires ReceiptsChecked(head, before, after) && before.outages == after.outages && Awaiting(before.world.db, t)
      requires About(after.asked, t) == About(before.asked, t) + qs && Found(qs) && NamesBlockOf(head, qs[|qs| - 1])
      ensures In(after.world.db, t, Confirmed) && !OutOfChain(after.world.db, t, head)
    {
      assert Inquired(before.world.db, after.world.db, t, before.asked, after.asked, 0);
      var same: seq<Inquiry> :| About(after.asked, t) == About(before.asked, t) + same
                                && Answered(before.world.db, after.world.db, t, same, 0);
      assert same == About(after.asked, t)[|About(before.asked, t)|..] == qs;
      FoundIsInChainIff(before.world.db, after.world.db, t, qs[|qs| - 1], head);
    }

    /** The third: what waits too long is sent again, at a higher price where possible. */
    ghost predicate GasBumped(head: Head, keys: seq<Address>, before: Moment, after: Moment) {
      && Onward(before, after) && AllKept(before.world.db, after.world.db)
      && (forall key :: key in keys ==> AllOutbid(before.world.db, after.world.db, key, head.number, before.calls, after.calls))
    }

    /** The fourth: what the chain does not confirm any more is put back and sent again. */
    ghost predicate ChainEnsured(head: Head, keys: seq<Address>, before: Moment, after: Moment) {
      var db, db' := before.world.db, after.world.db;
      && Onward(before, after)
      && (forall t :: Handed(db, t) ==>
            if OutOfChain(db, t, head) then Reorged(db, db', t, keys, before.calls, after.calls)
            else Frozen(db, db', t) || (db.txes[t].from in keys && Touched(db, db', t)))
      && (forall t, rc :: ConfirmedRow(db', t, rc, Bottom(head)) ==> InChain(rc, head))
      && (forall key :: key in keys ==> NothingToSend(db', key))
    }

    /** processHead; keys is what SendKeys returned. A nil error means that the four steps did their
        work one after the other, each from where the one before it left the store. Of all guards and
        constraints only two can fail: the CHECK on block numbers below 1, and the one against
        resetting an attempt that was never broadcast. Any other error has its cause on record. */
    method ProcessHead(head: Head, keys: seq<Address>) returns (r: Status, ghost stamped: Moment, ghost checked: Moment, ghost bumped: Moment)
      requires store.Valid() && gas.bumpWei >= 1
      modifies store
      ensures store.Valid() && Onward(old(store.Now()), store.Now())
      ensures r.Ok? ==> store.Was(stamped.log, stamped.world) && store.Was(checked.log, checked.world) && store.Was(bumped.log, bumped.world)
      ensures r.Ok? ==> HeadStamped(head, old(store.Now()), stamped)
      ensures r.Ok? ==> ReceiptsChecked(head, stamped, checked)
      ensures r.Ok? ==> GasBumped(head, keys, checked, bumped)
      ensures r.Ok? ==> ChainEnsured(head, keys, bumped, store.Now())
      ensures r.Failed? ==> if r.why.Rejected? then head.number <= 0 || (r.why.why == TopNotBroadcast && Unbroadcastable(bumped.world.db, head))
                            else FailedMeanwhile(gas, r.why, old(store.Now()), store.Now())
    {
      ghost var before := store.Now();
      stamped, checked, bumped := before, before, before;
      r := StampHead(head);
      stamped := store.Now();
      if !r.Ok? {
        return;
      }
      r := CheckHead(head);
      checked := store.Now();
      if !r.Ok? {
        FailedInBetween(gas, r.why, before, stamped, checked, checked);
        return;
      }
      r, bumped := BumpAndEnsure(head, keys);
      if r.Failed? && !r.why.Rejected? {
        FailedInBetween(gas, r.why, before, checked, store.Now(), store.Now());
      }
    }

    method StampHead(head: Head) returns (r: Status)
      requires store.Valid()
      modifies store
      ensures store.Valid() && Onward(old(store.Now()), store.Now())
      ensures r.Ok? ==> HeadStamped(head, old(store.Now()), store.Now()) && AllStamped(store.db)
      ensures r.Failed? ==> if r.why.Rejected? then head.number <= 0 else FailedMeanwhile(gas, r.why, old(store.Now()), store.Now())
    {
      ghost var before := store.Now();
      var checking := new Checking(store, finalityDepth);
      r := checking.SetBroadcastBeforeBlockNum(head.number);
      if r.Failed? && !r.why.Rejected? {
        FailedNow(gas, r.why, before, store.Now());
      }
    }

    method CheckHead(head: Head) returns (r: Status)
      requires store.Valid() && AllStamped(store.db)
      modifies store
      ensures store.Valid() && Onward(old(store.Now()), store.Now())
      ensures r.Ok? ==> ReceiptsChecked(head, old(store.Now()), store.Now())
      ensures r.Failed? ==> !r.why.Rejected? && FailedMeanwhile(gas, r.why, old(store.Now()), store.Now())
    {
      ghost var before := store.Now();
      var checking := new Checking(store, finalityDepth);
      r := checking.CheckForReceipts(head.number);
      if r.Ok? {
        AllReceiptsChecked(head, before, store.Now());
      } else {
        FailedNow(gas, r.why, before, store.Now());
      }
    }

    lemma AllReceiptsChecked(head: Head, before: Moment, after: Moment)
      requires Onward(before, after)
      requires forall t :: Handed(before.world.db, t) ==> Checked(before.world.db, after.world, t, head.number - finalityDepth)
      requires AllInquired(before.world.db, after.world.db, before.asked, after.asked, after.outages - before.outages)
      requires NoneOvertaken(before.world.db, after.world.db)
      requires head.number > finalityDepth ==>
                 forall t :: In(after.world.db, t, ConfirmedMissingReceipt) && Handed(before.world.db, t) ==>
                   !Buried(after.world.db, t, head.number - finalityDepth)
      ensures ReceiptsChecked(head, before, after)
    {
    }

    /** The second half of processHead, from SendKeys on. */
    method BumpAndEnsure(head: Head, keys: seq<Address>) returns (r: Status, ghost bumped: Moment)
      requires store.Valid() && gas.bumpWei >= 1
      modifies store
      ensures store.Valid() && Onward(old(store.Now()), store.Now())
      ensures r.Ok? ==> store.Was(bumped.log, bumped.world)
      ensures r.Ok? ==> GasBumped(head, keys, old(store.Now()), bumped)
      ensures r.Ok? ==> ChainEnsured(head, keys, bumped, store.Now())
      ensures r.Failed? ==> if r.why.Rejected? then r.why.why == TopNotBroadcast && Unbroadcastable(bumped.world.db, head)
                            else FailedMeanwhile(gas, r.why, old(store.Now()), store.Now())
    {
      ghost var before := store.Now();
      bumped := before;
      r := store.Reach();
      ghost var listed := store.Now();
      if !r.Ok? {
        FailedNow(gas, r.why, before, listed);
        return;
      }
      ghost var results, moments;
      r, results, moments := BumpGasWhereNecessary(keys, head.number);
      bumped := store.Now();
      if !r.Ok? {
        FailedInBetween(gas, r.why, before, listed, bumped, bumped);
        FailedIsNotRejected(gas, r.why, before, bumped);
        return;
      }
      r := EnsureConfirmedTransactionsInLongestChain(keys, head);
      if r.Ok? {
        NothingOverlooked(bumped.world.db, keys);
      } else if !r.why.Rejected? {
        FailedInBetween(gas, r.why, before, bumped, store.Now(), store.Now());
      }
    }

    lemma NothingOverlooked(db: Db, keys: seq<Address>)
      requires forall key :: key in keys ==> NothingToSend(db, key)
      ensures forall t, rc :: !Overlooked(db, t, rc, keys)
    {
      forall t, rc
        ensures !Overlooked(db, t, rc, keys)
      {
        assert Handed(db, t) && db.txes[t].from in keys ==> NoneSending(db, t);
      }
    }
  }
}
