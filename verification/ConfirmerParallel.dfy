/** The workers that eth_confirmer.go forks, side by side: what each of them assumes about the others
    while it runs holds of every interleaving, and what each leaves behind is still so at the join. */
module ConfirmerParallel {
  import opened Options
  import opened GasPrice
  import opened TxTables
  import opened TxTransactions
  import opened TxInvariant
  import opened TxInterference
  import opened TxStore
  import opened ConfirmerFrames
  import opened ConfirmerBumping
  import opened EthConfirmer

  /** The workers are forked for keys; a worker issues what is issued for its key. The log is what
      they and everybody else do meanwhile, in any order. */
  ghost predicate Forked(keys: set<Address>, w: World, log: seq<Transaction>) {
    ByOthers(KeyWorker(keys), w, log)
  }

  ghost function IssuerAt(w: World, log: seq<Transaction>, n: nat): Option<Issuer>
    requires n < |log|
  {
    var before := Run(w, log[..n]);
    if before.Some? then Some(IssuerOf(before.value.db, log[n])) else None
  }

  /** The worker issues none of these: it computes, or it waits for the node or for the others. */
  ghost predicate Silent(own: Issuer, w: World, log: seq<Transaction>) {
    forall n :: 0 <= n < |log| ==> IssuerAt(w, log, n) != Some(own)
  }

  /** The others of a fork, as a worker of it sees them. */
  ghost predicate Without(fork: Process, own: Issuer, me: Process) {
    forall other :: Concurrent(fork, other) && other != own ==> Concurrent(me, other)
  }

  lemma {:induction false} Split(fork: Process, w: World, before: seq<Transaction>, log: seq<Transaction>)
    requires Inv(w) && ByOthers(fork, w, before + log)
    ensures ByOthers(fork, w, before) && Run(w, before).Some? && Inv(Run(w, before).value)
    ensures ByOthers(fork, Run(w, before).value, log) && Run(w, before + log) == Run(Run(w, before).value, log)
    decreases |log|
  {
    if log == [] {
      assert before + log == before;
    } else {
      var shorter := log[..|log| - 1];
      assert (before + log)[..|before + log| - 1] == before + shorter;
      Split(fork, w, before, shorter);
      RunsCompose(w, before, log);
    }
    RelyOnOthers(fork, w, before);
  }

  lemma {:induction false} SilenceIsOthers(fork: Process, own: Issuer, me: Process, w: World, log: seq<Transaction>)
    requires Inv(w) && ByOthers(fork, w, log) && Without(fork, own, me) && Silent(own, w, log)
    ensures ByOthers(me, w, log)
    decreases |log|
  {
    if log != [] {
      var before := log[..|log| - 1];
      forall n | 0 <= n < |before|
        ensures IssuerAt(w, before, n) != Some(own)
      {
        assert before[..n] == log[..n] && IssuerAt(w, before, n) == IssuerAt(w, log, n);
      }
      SilenceIsOthers(fork, own, me, w, before);
      RelyOnOthers(fork, w, before);
      assert IssuerAt(w, log, |log| - 1) != Some(own);
    }
  }

  /** A worker can rely on the others in every interleaving: while it issues nothing, what is its own
      stays as it is, and what becomes its own is new. */
  lemma WorkersMayRely(fork: Process, own: Issuer, me: Process, w: World, before: seq<Transaction>, log: seq<Transaction>)
    requires Inv(w) && ByOthers(fork, w, before + log) && Without(fork, own, me)
    requires Run(w, before).Some? ==> Silent(own, Run(w, before).value, log)
    ensures Run(w, before).Some? && Run(w, before + log).Some?
    ensures Rely(me, Run(w, before).value.db, Run(w, before + log).value.db)
  {
    Split(fork, w, before, log);
    SilenceIsOthers(fork, own, me, Run(w, before).value, log);
    RelyOnOthers(me, Run(w, before).value, log);
  }

  lemma KeyWorkersMayRely(keys: set<Address>, key: Address, w: World, before: seq<Transaction>, log: seq<Transaction>)
    requires Inv(w) && Forked(keys, w, before + log) && key in keys
    requires Run(w, before).Some? ==> Silent(ByKeyWorker(key), Run(w, before).value, log)
    ensures Run(w, before).Some? && Run(w, before + log).Some?
    ensures Rely(KeyWorker(keys - {key}), Run(w, before).value.db, Run(w, before + log).value.db)
  {
    WorkersMayRely(KeyWorker(keys), ByKeyWorker(key), KeyWorker(keys - {key}), w, before, log);
  }

  lemma ReceiptWorkersMayRely(ids: set<nat>, t: nat, w: World, before: seq<Transaction>, log: seq<Transaction>)
    requires Inv(w) && ByOthers(ReceiptWorker(ids), w, before + log) && t in ids
    requires Run(w, before).Some? ==> Silent(ByReceiptWorker(t), Run(w, before).value, log)
    ensures Run(w, before).Some? && Run(w, before + log).Some?
    ensures Rely(ReceiptWorker(ids - {t}), Run(w, before).value.db, Run(w, before + log).value.db)
  {
    WorkersMayRely(ReceiptWorker(ids), ByReceiptWorker(t), ReceiptWorker(ids - {t}), w, before, log);
  }

  // ---- the join ----

  /** The worker of key was through after n transactions and left nothing unsent. */
  ghost predicate Through(key: Address, w: World, log: seq<Transaction>, n: nat) {
    && n <= |log| && Run(w, log[..n]).Some? && NothingToSend(Run(w, log[..n]).value.db, key)
    && Silent(ByKeyWorker(key), Run(w, log[..n]).value, log[n..])
  }

  /** With every worker through, whatever the order they ran in: nothing of any of the keys is left
      unsent, transactions of other keys are as they were, and what was handed over meanwhile is new. */
  lemma NothingLeftAtTheJoin(keys: set<Address>, w: World, log: seq<Transaction>)
    requires Inv(w) && Forked(keys, w, log) && forall key :: key in keys ==> exists n: nat :: Through(key, w, log, n)
    ensures Run(w, log).Some? && Rely(KeyWorker(keys), w.db, Run(w, log).value.db)
    ensures forall key :: key in keys ==> NothingToSend(Run(w, log).value.db, key)
  {
    RelyOnOthers(KeyWorker(keys), w, log);
    forall key | key in keys
      ensures NothingToSend(Run(w, log).value.db, key)
    {
      var n: nat :| Through(key, w, log, n);
      StillNothingAtTheJoin(keys, key, w, log, n);
    }
  }

  lemma StillNothingAtTheJoin(keys: set<Address>, key: Address, w: World, log: seq<Transaction>, n: nat)
    requires Inv(w) && Forked(keys, w, log) && key in keys && Through(key, w, log, n)
    ensures Run(w, log).Some? && NothingToSend(Run(w, log).value.db, key)
  {
    assert log[..n] + log[n..] == log;
    KeyWorkersMayRely(keys, key, w, log[..n], log[n..]);
    StillNothing(KeyWorker(keys - {key}), Run(w, log[..n]).value.db, Run(w, log).value.db, key);
  }

  lemma StillNothing(me: Process, db: Db, db': Db, key: Address)
    requires me.KeyWorker? && key !in me.siblings && Rely(me, db, db') && NothingToSend(db, key)
    ensures NothingToSend(db', key)
  {
    forall t | Handed(db', t) && db'.txes[t].from == key
      ensures NoneSending(db', t)
    {
      assert Owns(me, db', t);
      if Owns(me, db, t) {
        assert Frozen(db, db', t);
      } else {
        assert Newcomer(me, db', t);
      }
    }
  }

  /** What a worker resent or outbid stays so until the join. */
  lemma StillRebidAtTheJoin(gas: GasConfig, keys: set<Address>, key: Address, w: World, before: seq<Transaction>, log: seq<Transaction>,
                            db0: Db, t: nat, s0: seq<Call>, s: seq<Call>)
    requires Inv(w) && Forked(keys, w, before + log) && key in keys && Run(w, before).Some?
    requires Silent(ByKeyWorker(key), Run(w, before).value, log)
    requires s0 <= s && Rebid(gas, db0, Run(w, before).value.db, t, s0, s) && Owns(KeyWorker(keys - {key}), Run(w, before).value.db, t)
    ensures Run(w, before + log).Some? && Rebid(gas, db0, Run(w, before + log).value.db, t, s0, s)
  {
    KeyWorkersMayRely(keys, key, w, before, log);
    RebidStays(gas, db0, Run(w, before).value.db, Run(w, before + log).value.db, t, s0, s, s);
  }
}
