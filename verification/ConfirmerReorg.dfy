/** eth_confirmer.go: finding confirmed transactions that a reorg took out of the longest chain. */
module ConfirmerReorg {
  import opened Options
  import opened TxTables
  import opened TxTransactions
  import opened TxInvariant
  import opened TxInterference
  import opened TxStore
  import opened ConfirmerQueries
  import opened ConfirmerFrames
  import opened ConfirmerBumping

  /** models.Head: a block and, as far as it is known, the chain below it. */
  datatype Head = Head(hash: nat, number: int, parent: Option<Head>)

  function Chain(head: Head): (heads: seq<Head>)
    ensures heads != [] && heads[0] == head
  {
    [head] + match head.parent case None => [] case Some(below) => Chain(below)
  }

  function Earliest(head: Head): Head {
    match head.parent case None => head case Some(below) => Earliest(below)
  }

  lemma {:induction false} EarliestIsLast(head: Head)
    ensures Earliest(head) == Chain(head)[|Chain(head)| - 1] && Earliest(head).parent.None?
  {
    match head.parent
    case None =>
    case Some(below) =>
      EarliestIsLast(below);
      assert Chain(head) == [head] + Chain(below);
  }

  /** EarliestInChain. */
  method EarliestInChain(head: Head) returns (h: Head)
    ensures h == Earliest(head)
  {
    h := head;
    while h.parent.Some?
      invariant Earliest(h) == Earliest(head)
      decreases h
    {
      h := h.parent.value;
    }
  }

  predicate Matches(r: Receipt, h: Head) {
    r.blockHash == h.hash && r.blockNumber == h.number
  }

  predicate InChain(r: Receipt, head: Head) {
    exists h :: h in Chain(head) && Matches(r, h)
  }

  predicate MatchesAny(receipts: seq<seq<Receipt>>, h: Head) {
    exists i, j :: 0 <= i < |receipts| && 0 <= j < |receipts[i]| && Matches(receipts[i][j], h)
  }

  /** hasReceiptInLongestChain, on the receipts of each attempt of the transaction. */
  method HasReceiptInLongestChain(receipts: seq<seq<Receipt>>, head: Head) returns (found: bool)
    ensures found <==> exists h :: h in Chain(head) && MatchesAny(receipts, h)
  {
    var h := head;
    while true
      invariant (exists k :: k in Chain(head) && MatchesAny(receipts, k)) <==> (exists k :: k in Chain(h) && MatchesAny(receipts, k))
      decreases h
    {
      found := HasReceiptAt(receipts, h);
      if found {
        assert h in Chain(h);
        return true;
      }
      if h.parent.None? {
        assert Chain(h) == [h];
        return false;
      }
      assert Chain(h) == [h] + Chain(h.parent.value);
      h := h.parent.value;
    }
  }

  method HasReceiptAt(receipts: seq<seq<Receipt>>, h: Head) returns (found: bool)
    ensures found <==> MatchesAny(receipts, h)
  {
    for i := 0 to |receipts|
      invariant forall a, b :: 0 <= a < i && 0 <= b < |receipts[a]| ==> !Matches(receipts[a][b], h)
    {
      for j := 0 to |receipts[i]|
        invariant forall b :: 0 <= b < j ==> !Matches(receipts[i][b], h)
      {
        if receipts[i][j].blockHash == h.hash && receipts[i][j].blockNumber == h.number {
          assert Matches(receipts[i][j], h);
          return true;
        }
      }
    }
    return false;
  }

  /** Preload("EthTxAttempts.EthReceipts"). */
  method LoadReceipts(db: Db, attempts: seq<Attempt>) returns (receipts: seq<seq<Receipt>>)
    ensures |receipts| == |attempts|
    ensures forall i :: 0 <= i < |attempts| ==> forall r :: r in receipts[i] <==> r in db.receipts && r.attempt == attempts[i].id
  {
    receipts := [];
    for i := 0 to |attempts|
      invariant |receipts| == i
      invariant forall j :: 0 <= j < i ==> forall r :: r in receipts[j] <==> r in db.receipts && r.attempt == attempts[j].id
    {
      var all := set r | r in db.receipts && r.attempt == attempts[i].id;
      var rest, listed := all, [];
      while rest != {}
        invariant rest <= all && forall r :: r in all <==> r in rest || r in listed
        decreases |rest|
      {
        var r :| r in rest;
        rest, listed := rest - {r}, listed + [r];
      }
      receipts := receipts + [listed];
    }
  }

  // ---- markForRebroadcast ----

  ghost predicate Reset(db: Db, db': Db, t: nat, top: nat) {
    && Of(db, top, t) && db.attempts[top].state == Broadcast
    && (forall x :: Of(db, x, t) ==> db.attempts[x].price <= db.attempts[top].price)
    && (forall x :: Of(db', x, t) <==> Of(db, x, t))
    && (forall x :: Of(db, x, t) ==>
          db'.attempts[x] == if x == top then db.attempts[x].(stamp := None, state := Sending) else db.attempts[x])
  }

  /** t is unconfirmed again, without receipts, and its dearest attempt is about to be sent again. */
  ghost predicate Rebroadcast(db: Db, db': Db, t: nat) {
    && In(db, t, Confirmed) && t in db'.txes && db'.txes[t] == db.txes[t].(state := Unconfirmed)
    && (forall r :: r in db'.receipts ==> !Of(db', r.attempt, t))
    && (exists top :: Reset(db, db', t, top))
  }

  lemma MarkingRebroadcasts(db: Db, t: nat, db': Db)
    requires In(db, t, Confirmed) && Applies(db, MarkForRebroadcast(Load(db, t)), db')
    ensures Rebroadcast(db, db', t)
  {
    TopIsDearest(db, t);
    assert Reset(db, db', t, AttemptsOf(db, t)[0].id);
  }

  lemma RebroadcastThenFrozen(db0: Db, db1: Db, db2: Db, t: nat)
    requires Rebroadcast(db0, db1, t) && Frozen(db1, db2, t)
    ensures Rebroadcast(db0, db2, t)
  {
    var top :| Reset(db0, db1, t, top);
    forall x: nat
      ensures Of(db2, x, t) <==> Of(db1, x, t)
      ensures Of(db1, x, t) ==> db2.attempts[x] == db1.attempts[x]
    {
    }
    assert Reset(db0, db2, t, top);
  }

  lemma RebroadcastAfterFrozen(db0: Db, db1: Db, db2: Db, t: nat)
    requires Frozen(db0, db1, t) && Rebroadcast(db1, db2, t)
    ensures Rebroadcast(db0, db2, t)
  {
    var top :| Reset(db1, db2, t, top);
    forall x: nat
      ensures Of(db1, x, t) <==> Of(db0, x, t)
      ensures Of(db1, x, t) ==> db0.attempts[x] == db1.attempts[x]
    {
    }
    assert Reset(db0, db2, t, top);
  }

  // ---- which transactions are marked ----

  /** t is confirmed by a receipt that is as high as the known chain reaches down, but not in it. */
  ghost predicate OutOfChain(db: Db, t: nat, head: Head) {
    exists r :: ConfirmedRow(db, t, r, Bottom(head)) && !InChain(r, head)
  }

  function Bottom(head: Head): int {
    Earliest(head).number
  }

  ghost predicate Judged(db: Db, db': Db, t: nat, head: Head) {
    if OutOfChain(db, t, head) then Rebroadcast(db, db', t) else Frozen(db, db', t)
  }

  /** The transactions in done have been looked at; the rest is as it was. */
  ghost predicate JudgedFrame(done: set<nat>, db: Db, db': Db, head: Head) {
    && (forall t :: Handed(db, t) ==> if t in done then Judged(db, db', t, head) else Frozen(db, db', t))
    && (forall t :: Handed(db', t) && !Handed(db, t) ==> Newcomer(ConfirmerMain, db', t))
  }

  lemma JudgedByOthers(done: set<nat>, db0: Db, db1: Db, db2: Db, head: Head)
    requires JudgedFrame(done, db0, db1, head) && Rely(ConfirmerMain, db1, db2)
    ensures JudgedFrame(done, db0, db2, head)
  {
    forall t | Handed(db0, t)
      ensures if t in done then Judged(db0, db2, t, head) else Frozen(db0, db2, t)
    {
      assert Owns(ConfirmerMain, db1, t) && Frozen(db1, db2, t);
      if t in done && OutOfChain(db0, t, head) {
        RebroadcastThenFrozen(db0, db1, db2, t);
      } else {
        FrozenIsTransitive(db0, db1, db2, t);
      }
    }
    forall t | Handed(db2, t) && !Handed(db0, t)
      ensures Newcomer(ConfirmerMain, db2, t)
    {
      assert Owns(ConfirmerMain, db2, t);
      if Owns(ConfirmerMain, db1, t) {
        FrozenIsTouched(db1, db2, t);
        NewcomerStays(ConfirmerMain, db1, db2, t);
      }
    }
  }

  lemma JudgedOneMore(done: set<nat>, db0: Db, db1: Db, t: nat, db2: Db, head: Head)
    requires JudgedFrame(done, db0, db1, head) && t !in done && OutOfChain(db0, t, head) && Handed(db0, t)
    requires In(db1, t, Confirmed) && Applies(db1, MarkForRebroadcast(Load(db1, t)), db2)
    ensures JudgedFrame(done + {t}, db0, db2, head)
  {
    assert Judged(db0, db2, t, head) by {
      MarkingRebroadcasts(db1, t, db2);
      RebroadcastAfterFrozen(db0, db1, db2, t);
    }
    MarkingSparesOthers(db1, t, db2);
    JudgedElsewhere(done, db0, db1, t, db2, head);
  }

  lemma JudgedElsewhere(done: set<nat>, db0: Db, db1: Db, t: nat, db2: Db, head: Head)
    requires JudgedFrame(done, db0, db1, head) && Handed(db0, t)
    requires forall u :: Handed(db1, u) && u != t ==> Frozen(db1, db2, u)
    requires forall u :: Handed(db2, u) ==> Handed(db1, u)
    ensures forall u :: Handed(db0, u) && u != t ==> if u in done then Judged(db0, db2, u, head) else Frozen(db0, db2, u)
    ensures forall u :: Handed(db2, u) && !Handed(db0, u) ==> Newcomer(ConfirmerMain, db2, u)
  {
    forall u | Handed(db0, u) && u != t
      ensures if u in done then Judged(db0, db2, u, head) else Frozen(db0, db2, u)
    {
      assert Handed(db1, u);
      JudgedThenFrozen(u in done, db0, db1, db2, u, head);
    }
    forall u | Handed(db2, u) && !Handed(db0, u)
      ensures Newcomer(ConfirmerMain, db2, u)
    {
      NewcomerStaysFrozen(db1, db2, u);
    }
  }

  lemma JudgedThenFrozen(done: bool, db0: Db, db1: Db, db2: Db, u: nat, head: Head)
    requires (if done then Judged(db0, db1, u, head) else Frozen(db0, db1, u)) && Frozen(db1, db2, u)
    ensures if done then Judged(db0, db2, u, head) else Frozen(db0, db2, u)
  {
    if done && OutOfChain(db0, u, head) {
      RebroadcastThenFrozen(db0, db1, db2, u);
    } else {
      FrozenIsTransitive(db0, db1, db2, u);
    }
  }

  lemma NewcomerStaysFrozen(db: Db, db': Db, t: nat)
    requires t in db.txes && Newcomer(ConfirmerMain, db, t) && Frozen(db, db', t)
    ensures Newcomer(ConfirmerMain, db', t)
  {
    FrozenIsTouched(db, db', t);
    NewcomerStays(ConfirmerMain, db, db', t);
  }

  lemma MarkingSparesOthers(db: Db, t: nat, db': Db)
    requires In(db, t, Confirmed) && Applies(db, MarkForRebroadcast(Load(db, t)), db')
    ensures forall u :: Handed(db, u) && u != t ==> Frozen(db, db', u)
    ensures forall u :: Handed(db', u) ==> Handed(db, u)
  {
    forall u | u in db.txes && u != t
      ensures Frozen(db, db', u)
    {
      OthersFrozen(db, MarkForRebroadcast(Load(db, t)), db', u);
    }
    forall u
      ensures Handed(db', u) ==> Handed(db, u)
    {
      RowsFollowStateMachine(db, MarkForRebroadcast(Load(db, t)), db', u);
    }
  }

  lemma JudgedSpared(done: set<nat>, db0: Db, db1: Db, t: nat, head: Head)
    requires JudgedFrame(done, db0, db1, head) && !OutOfChain(db0, t, head)
    ensures JudgedFrame(done + {t}, db0, db1, head)
  {
  }

  lemma FoundAboveIff(db: Db, head: Head, t: nat)
    ensures t in ConfirmedAtOrAbove(db, Bottom(head)) <==> exists r :: ConfirmedRow(db, t, r, Bottom(head))
  {
    if r :| ConfirmedRow(db, t, r, Bottom(head)) {
      assert t in db.txes && r in db.receipts;
    }
  }

  /** Looking at what the query found is looking at everything: the transactions that are out of
      the chain are marked, no other is touched, and every receipt left is in the chain. */
  lemma AllJudged(db: Db, db': Db, head: Head)
    requires JudgedFrame(IdSet(ConfirmedAtOrAbove(db, Bottom(head))), db, db', head)
    ensures forall t :: Handed(db, t) ==> Judged(db, db', t, head)
    ensures forall t, r :: ConfirmedRow(db', t, r, Bottom(head)) ==> InChain(r, head)
  {
    forall t | Handed(db, t)
      ensures Judged(db, db', t, head)
    {
      FoundAboveIff(db, head, t);
    }
    forall t, r | ConfirmedRow(db', t, r, Bottom(head))
      ensures InChain(r, head)
    {
      assert Handed(db', t);
      if Handed(db, t) && !OutOfChain(db, t, head) {
        assert Frozen(db, db', t) && ConfirmedRow(db, t, r, Bottom(head));
      }
    }
  }

  /** What the code looks at is what OutOfChain says: with one receipt at most, it is in the chain
      or it is not. */
  lemma OutOfChainIff(db: Db, t: nat, receipts: seq<seq<Receipt>>, head: Head)
    requires Shape(db) && t in ConfirmedAtOrAbove(db, Bottom(head)) && t in db.txes && ReceiptsOk(db, t)
    requires |receipts| == |AttemptsOf(db, t)|
    requires forall i :: 0 <= i < |receipts| ==> forall r :: r in receipts[i] <==> r in db.receipts && r.attempt == AttemptsOf(db, t)[i].id
    ensures OutOfChain(db, t, head) <==> !exists h :: h in Chain(head) && MatchesAny(receipts, h)
  {
    FoundAboveIff(db, head, t);
    var r :| ConfirmedRow(db, t, r, Bottom(head));
    OnlyReceipt(db, t, r, receipts);
    if h :| h in Chain(head) && MatchesAny(receipts, h) {
      var i, j :| 0 <= i < |receipts| && 0 <= j < |receipts[i]| && Matches(receipts[i][j], h);
      assert receipts[i][j] in receipts[i];
    }
    if InChain(r, head) {
      var h :| h in Chain(head) && Matches(r, h);
      var i :| 0 <= i < |receipts| && r in receipts[i];
      var j :| 0 <= j < |receipts[i]| && receipts[i][j] == r;
      assert MatchesAny(receipts, h);
    }
    assert forall s :: ConfirmedRow(db, t, s, Bottom(head)) ==> s == r;
  }

  lemma OnlyReceipt(db: Db, t: nat, r: Receipt, receipts: seq<seq<Receipt>>)
    requires Shape(db) && t in db.txes && ReceiptsOk(db, t) && r in db.receipts && Of(db, r.attempt, t)
    requires |receipts| == |AttemptsOf(db, t)|
    requires forall i :: 0 <= i < |receipts| ==> forall s :: s in receipts[i] <==> s in db.receipts && s.attempt == AttemptsOf(db, t)[i].id
    ensures exists i :: 0 <= i < |receipts| && r in receipts[i]
    ensures forall i, s :: 0 <= i < |receipts| && s in receipts[i] ==> s == r
  {
    var attempts := AttemptsOf(db, t);
    AttemptsOfIsComplete(db, t);
    var k :| 0 <= k < |attempts| && attempts[k] == db.attempts[r.attempt];
    forall i, s | 0 <= i < |receipts| && s in receipts[i]
      ensures s == r
    {
      assert attempts[i] in attempts;
      var x :| Of(db, x, t) && db.attempts[x] == attempts[i];
      assert Of(db, s.attempt, t);
    }
  }

  lemma OutOfChainStays(db: Db, db': Db, t: nat, head: Head)
    requires Frozen(db, db', t)
    ensures OutOfChain(db, t, head) <==> OutOfChain(db', t, head)
  {
    forall r: Receipt
      ensures ConfirmedRow(db, t, r, Bottom(head)) <==> ConfirmedRow(db', t, r, Bottom(head))
    {
      assert Of(db, r.attempt, t) <==> Of(db', r.attempt, t);
    }
  }

  lemma RelyThenJudged(done: set<nat>, db0: Db, db1: Db, db2: Db, head: Head)
    requires Rely(ConfirmerMain, db0, db1) && JudgedFrame(done, db1, db2, head)
    ensures JudgedFrame(done, db0, db2, head)
  {
    forall t | Handed(db0, t)
      ensures if t in done then Judged(db0, db2, t, head) else Frozen(db0, db2, t)
    {
      assert Owns(ConfirmerMain, db0, t) && Frozen(db0, db1, t);
      OutOfChainStays(db0, db1, t, head);
      if t in done && OutOfChain(db1, t, head) {
        RebroadcastAfterFrozen(db0, db1, db2, t);
      } else {
        FrozenIsTransitive(db0, db1, db2, t);
      }
    }
    forall t | Handed(db2, t) && !Handed(db0, t)
      ensures Newcomer(ConfirmerMain, db2, t)
    {
      if Handed(db1, t) {
        assert Owns(ConfirmerMain, db1, t) && Newcomer(ConfirmerMain, db1, t);
        FrozenIsTouched(db1, db2, t);
        NewcomerStays(ConfirmerMain, db1, db2, t);
      }
    }
  }

  /** Some re-orged transaction has an attempt that was never broadcast. */
  ghost predicate Unbroadcastable(db: Db, head: Head) {
    exists t, x :: OutOfChain(db, t, head) && Of(db, x, t) && db.attempts[x].state != Broadcast
  }

  lemma ConfirmedIsOld(db0: Db, db1: Db, t: nat, head: Head)
    requires Rely(ConfirmerMain, db0, db1) && OutOfChain(db1, t, head)
    ensures Frozen(db0, db1, t)
  {
    assert Owns(ConfirmerMain, db1, t);
    assert Owns(ConfirmerMain, db0, t) || Newcomer(ConfirmerMain, db1, t);
  }

  lemma UnbroadcastableSince(db0: Db, db1: Db, head: Head)
    requires Rely(ConfirmerMain, db0, db1) && Unbroadcastable(db1, head)
    ensures Unbroadcastable(db0, head)
  {
    var t: nat, x: nat :| OutOfChain(db1, t, head) && Of(db1, x, t) && db1.attempts[x].state != Broadcast;
    ConfirmedIsOld(db0, db1, t, head);
    OutOfChainStays(db0, db1, t, head);
    assert Of(db0, x, t);
  }

  /** The marking can only fail on the database, or on an attempt that was never broadcast. */
  ghost predicate Explained(r: Status, db: Db, head: Head, before: nat, after: nat) {
    if r.Failed? && r.why.Rejected? then before <= after && r.why.why == TopNotBroadcast && Unbroadcastable(db, head)
    else OnlyUnreachable(r, before, after)
  }

  class Reorg {
    const store: Store

    constructor (store: Store)
      ensures this.store == store
    {
      this.store := store;
    }

    /** The first half of EnsureConfirmedTransactionsInLongestChain. done are the transactions it got
        round to; a nil error means that was every one that is out of the chain. */
    method MarkReorged(head: Head) returns (r: Status, ghost done: set<nat>)
      requires store.Valid()
      modifies store
      ensures store.Valid() && Onward(old(store.Now()), store.Now())
      ensures JudgedFrame(done, old(store.db), store.db, head)
      ensures r.Ok? ==> forall t :: Handed(old(store.db), t) ==> Judged(old(store.db), store.db, t, head)
      ensures r.Ok? ==> forall t, rc :: ConfirmedRow(store.db, t, rc, Bottom(head)) ==> InChain(rc, head)
      ensures Explained(r, old(store.db), head, old(store.outages), store.outages)
    {
      store.Interleave(ConfirmerMain);
      ghost var db1 := store.db;
      r, done := JudgeFound(head);
      if r.Ok? {
        AllJudgedSince(old(store.db), db1, store.db, head);
      }
      RelyThenJudged(done, old(store.db), db1, store.db, head);
      if r.Failed? && r.why.Rejected? {
        UnbroadcastableSince(old(store.db), db1, head);
      }
    }

    /** findTransactionsConfirmedAtOrAboveBlockHeight, for the height of the last known head. */
    method FindConfirmed(head: Head) returns (r: Status, found: seq<nat>)
      requires store.Valid()
      modifies store`outages
      ensures store.Valid() && OnlyUnreachable(r, old(store.outages), store.outages)
      ensures found == ConfirmedAtOrAbove(store.db, Bottom(head)) && AllSound(store.db, found, head)
    {
      var bottom := EarliestInChain(head);
      r := store.Reach();
      found := ConfirmedAtOrAbove(store.db, bottom.number);
      store.InvHolds();
      AllFoundAreSound(store.world, head);
    }

    /** The query, and the loop over what it finds. */
    method JudgeFound(head: Head) returns (r: Status, ghost done: set<nat>)
      requires store.Valid()
      modifies store
      ensures store.Valid() && Onward(old(store.Now()), store.Now())
      ensures JudgedFrame(done, old(store.db), store.db, head) && (r.Ok? ==> Cleared(old(store.db), store.db, head))
      ensures Explained(r, old(store.db), head, old(store.outages), store.outages)
    {
      ghost var db := store.db;
      var found;
      r, found := FindConfirmed(head);
      if !r.Ok? {
        done := {};
        JudgedNothing(db, [], head);
        return;
      }
      r, done := JudgeEach(found, head);
      if r.Ok? {
        AllJudged(db, store.db, head);
      }
    }

    /** Everything was judged, and what the receipts confirm still is in the chain. */
    ghost predicate Cleared(db: Db, db': Db, head: Head) {
      && (forall t :: Handed(db, t) ==> Judged(db, db', t, head))
      && (forall t, rc :: ConfirmedRow(db', t, rc, Bottom(head)) ==> InChain(rc, head))
    }

    lemma AllJudgedSince(db0: Db, db1: Db, db2: Db, head: Head)
      requires Rely(ConfirmerMain, db0, db1) && forall t :: Handed(db1, t) ==> Judged(db1, db2, t, head)
      ensures forall t :: Handed(db0, t) ==> Judged(db0, db2, t, head)
    {
      forall t | Handed(db0, t)
        ensures Judged(db0, db2, t, head)
      {
        assert Owns(ConfirmerMain, db0, t) && Frozen(db0, db1, t) && Handed(db1, t);
        OutOfChainStays(db0, db1, t, head);
        if OutOfChain(db1, t, head) {
          RebroadcastAfterFrozen(db0, db1, db2, t);
        } else {
          FrozenIsTransitive(db0, db1, db2, t);
        }
      }
    }

    /** What the invariant says about a row that was found. */
    ghost predicate Sound(db: Db, t: nat, head: Head) {
      Shape(db) && t in ConfirmedAtOrAbove(db, Bottom(head)) && In(db, t, Confirmed) && ReceiptsOk(db, t)
    }

    lemma FoundOnce(db: Db, height: int)
      ensures var found := ConfirmedAtOrAbove(db, height); forall i, j :: 0 <= i < j < |found| ==> found[i] != found[j]
    {
    }

    ghost predicate AllSound(db: Db, found: seq<nat>, head: Head) {
      && (forall i :: 0 <= i < |found| ==> Sound(db, found[i], head))
      && (forall i, j :: 0 <= i < j < |found| ==> found[i] != found[j])
    }

    lemma FoundIsSound(w: World, t: nat, head: Head)
      requires Inv(w) && t in ConfirmedAtOrAbove(w.db, Bottom(head))
      ensures Sound(w.db, t, head)
    {
      FoundAboveIff(w.db, head, t);
      var r :| ConfirmedRow(w.db, t, r, Bottom(head));
      ConfirmedRowsAreDistinct(w, t, r, r, Bottom(head));
      assert TxOk(w, t);
    }

    lemma AllFoundAreSound(w: World, head: Head)
      requires Inv(w)
      ensures AllSound(w.db, ConfirmedAtOrAbove(w.db, Bottom(head)), head)
    {
      var found := ConfirmedAtOrAbove(w.db, Bottom(head));
      FoundOnce(w.db, Bottom(head));
      forall i | 0 <= i < |found|
        ensures Sound(w.db, found[i], head)
      {
        assert found[i] in found;
        FoundIsSound(w, found[i], head);
      }
    }

    method JudgeEach(found: seq<nat>, head: Head) returns (r: Status, ghost done: set<nat>)
      requires store.Valid() && AllSound(store.db, found, head)
      modifies store
      ensures store.Valid() && Onward(old(store.Now()), store.Now())
      ensures JudgedFrame(done, old(store.db), store.db, head) && (r.Ok? ==> done == IdSet(found))
      ensures Explained(r, old(store.db), head, old(store.outages), store.outages)
    {
      var db := store.db;
      JudgedNothing(db, found, head);
      r, done := Ok, IdSet(found[..0]);
      for i := 0 to |found|
        invariant store.Valid() && Onward(old(store.Now()), store.Now()) && r.Ok?
        invariant done == IdSet(found[..i]) && JudgedFrame(done, db, store.db, head) && old(store.outages) <= store.outages
      {
        r := JudgeNext(db, found, i, head);
        if !r.Ok? {
          return;
        }
        done := IdSet(found[..i + 1]);
      }
      assert found[..|found|] == found;
    }

    method JudgeNext(db: Db, found: seq<nat>, i: nat, head: Head) returns (r: Status)
      requires store.Valid() && AllSound(db, found, head) && i < |found|
      requires JudgedFrame(IdSet(found[..i]), db, store.db, head)
      modifies store
      ensures store.Valid() && Onward(old(store.Now()), store.Now())
      ensures JudgedFrame(IdSet(found[..if r.Ok? then i + 1 else i]), db, store.db, head)
      ensures Explained(r, db, head, old(store.outages), store.outages)
    {
      IdSetNext(found, i);
      r := Judge(db, found[i], head, IdSet(found[..i]));
    }

    lemma JudgedNothing(db: Db, found: seq<nat>, head: Head)
      ensures JudgedFrame(IdSet(found[..0]), db, db, head) && JudgedFrame({}, db, db, head)
    {
    }

    /** One round of the loop, for a transaction as it was loaded in db. */
    method Judge(db: Db, t: nat, head: Head, ghost done: set<nat>) returns (r: Status)
      requires store.Valid() && JudgedFrame(done, db, store.db, head) && t !in done
      requires Sound(db, t, head)
      modifies store
      ensures store.Valid() && Onward(old(store.Now()), store.Now())
      ensures JudgedFrame(if r.Ok? then done + {t} else done, db, store.db, head)
      ensures Explained(r, db, head, old(store.outages), store.outages)
    {
      var loaded := Load(db, t);
      var receipts := LoadReceipts(db, loaded.attempts);
      OutOfChainIff(db, t, receipts, head);
      var found := HasReceiptInLongestChain(receipts, head);
      if found {
        JudgedSpared(done, db, store.db, t, head);
        return Ok;
      }
      r := MarkForRebroadcastNow(db, t, head, done);
    }

    /** markForRebroadcast. */
    method MarkForRebroadcastNow(db: Db, t: nat, head: Head, ghost done: set<nat>) returns (r: Status)
      requires store.Valid() && JudgedFrame(done, db, store.db, head) && t !in done
      requires Shape(db) && OutOfChain(db, t, head) && In(db, t, Confirmed)
      modifies store
      ensures store.Valid() && Onward(old(store.Now()), store.Now())
      ensures JudgedFrame(if r.Ok? then done + {t} else done, db, store.db, head)
      ensures Explained(r, db, head, old(store.outages), store.outages)
    {
      store.Interleave(ConfirmerMain);
      JudgedByOthers(done, db, old(store.db), store.db, head);
      r := Mark(db, Load(db, t), head, done);
    }

    method Mark(ghost db: Db, loaded: LoadedTx, ghost head: Head, ghost done: set<nat>) returns (r: Status)
      requires store.Valid() && JudgedFrame(done, db, store.db, head) && loaded.row.id !in done
      requires OutOfChain(db, loaded.row.id, head) && In(db, loaded.row.id, Confirmed) && loaded == Load(db, loaded.row.id)
      modifies store
      ensures store.Valid() && Onward(old(store.Now()), store.Now())
      ensures JudgedFrame(if r.Ok? then done + {loaded.row.id} else done, db, store.db, head)
      ensures Explained(r, db, head, old(store.outages), store.outages)
    {
      ghost var t, db1 := loaded.row.id, store.db;
      HasAttempt(db, t, head);
      FrozenLoads(db, db1, t);
      r := store.Transact(ConfirmerMain, MarkForRebroadcast(loaded));
      if r.Ok? {
        JudgedOneMore(done, db, db1, t, store.db, head);
      } else if r.why.Rejected? {
        TopIsUnbroadcastable(db, t, head);
      }
    }

    lemma TopIsUnbroadcastable(db: Db, t: nat, head: Head)
      requires OutOfChain(db, t, head) && AttemptsOf(db, t) != [] && AttemptsOf(db, t)[0].state != Broadcast
      ensures Unbroadcastable(db, head)
    {
      AttemptsOfIsComplete(db, t);
      var x :| Of(db, x, t) && db.attempts[x] == AttemptsOf(db, t)[0];
    }

    lemma HasAttempt(db: Db, t: nat, head: Head)
      requires OutOfChain(db, t, head)
      ensures AttemptsOf(db, t) != []
    {
      var r :| ConfirmedRow(db, t, r, Bottom(head)) && !InChain(r, head);
      AttemptsOfIsComplete(db, t);
      assert db.attempts[r.attempt] in AttemptsOf(db, t);
    }
  }
}
