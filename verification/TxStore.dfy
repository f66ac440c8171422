/** The shared store as an object: the tables, the log of everything committed so far, and the
    other processes that may commit between any two operations of the one being looked at. */
module TxStore {
  import opened Options
  import opened GasPrice
  import opened TxTables
  import opened TxTransactions
  import opened TxInvariant
  import opened TxInterference
  import opened TxTheorems

  datatype Problem =
    | DbFailure               // the database could not be reached; nothing was committed
    | Rejected(why: Failure)  // a guard or a constraint rolled the transaction back
    | NodeFailure             // the eth node gave no usable answer
    | KeyStoreFailure         // newAttempt could not sign
    | BumpFailure             // BumpGas failed

  datatype Status = Ok | Failed(why: Problem)

  /** What the node's error can be classified as; an absent SendError is nil. */
  datatype SendError = SendError(
    message: string, fatal: bool, nonceTooLow: bool, replacementUnderpriced: bool, terminallyUnderpriced: bool,
    temporarilyUnderpriced: bool, insufficientEth: bool, alreadyInMempool: bool)

  /** One call of the eth node: the attempt that was handed to it, and its answer. */
  datatype Exchange = Exchange(attempt: Attempt, raw: Option<SendError>)

  /** What sendTransaction makes of the answer: an already known transaction counts as sent. */
  function Classified(raw: Option<SendError>): Option<SendError> {
    if raw.Some? && raw.value.alreadyInMempool then None else raw
  }

  /** What fetchReceipt can come back with; NotFound is the nil receipt without an error. A receipt
      without a block number belongs to a transaction that is still in the mempool. */
  datatype ReceiptAnswer =
    | TooEarly
    | FetchError
    | NotFound
    | Got(txHash: nat, blockNumber: Option<int>, blockHash: nat)

  /** One request for a receipt: of which transaction, by the hash of which attempt. */
  datatype Inquiry = Inquiry(txId: nat, attempt: nat, answer: ReceiptAnswer)

  /** Every other call that leaves the program: a sending, the default gas price read for an attempt,
      a signature for one, the nonce a key starts with, the time a transaction is first sent. */
  datatype Call =
    | Sent(x: Exchange)
    | Quote(txId: nat, default: int)
    | Signature(txId: nat, signed: bool)
    | NonceRequest(from: Address, nonce: Option<int>)
    | Clock(txId: nat, now: int)

  /** What the store and its histories are at some time. */
  datatype Moment = Moment(world: World, log: seq<Transaction>, calls: seq<Call>, asked: seq<Inquiry>, outages: nat)

  /** Nothing that was committed, sent or asked is undone. */
  ghost predicate Onward(before: Moment, after: Moment) {
    before.log <= after.log && before.calls <= after.calls && before.asked <= after.asked && before.outages <= after.outages
  }

  /** Only the database can have failed, and it is on record that it did. */
  predicate OnlyUnreachable(r: Status, before: nat, after: nat) {
    before <= after && (r.Ok? || (r.why.DbFailure? && before < after))
  }

  // ---- the histories, transaction by transaction ----

  function SendsOf(calls: seq<Call>, t: nat): seq<Exchange>
    decreases |calls|
  {
    if calls == [] then [] else
      var last := calls[|calls| - 1];
      SendsOf(calls[..|calls| - 1], t) + if last.Sent? && last.x.attempt.txId == t then [last.x] else []
  }

  /** The default gas prices read for attempts of t. */
  function QuotesOf(calls: seq<Call>, t: nat): seq<int>
    decreases |calls|
  {
    if calls == [] then [] else
      var last := calls[|calls| - 1];
      QuotesOf(calls[..|calls| - 1], t) + if last.Quote? && last.txId == t then [last.default] else []
  }

  function About(asked: seq<Inquiry>, t: nat): seq<Inquiry>
    decreases |asked|
  {
    if asked == [] then [] else
      var last := asked[|asked| - 1];
      About(asked[..|asked| - 1], t) + if last.txId == t then [last] else []
  }

  /** How many attempts of t were replaced by a dearer one. */
  function Replacements(log: seq<Transaction>, t: nat): nat
    decreases |log|
  {
    if log == [] then 0 else
      var last := log[|log| - 1];
      Replacements(log[..|log| - 1], t) + if last.SaveReplacement? && last.previous.txId == t then 1 else 0
  }

  lemma OneMoreCall(calls: seq<Call>, c: Call, t: nat)
    ensures SendsOf(calls + [c], t) == SendsOf(calls, t) + if c.Sent? && c.x.attempt.txId == t then [c.x] else []
    ensures QuotesOf(calls + [c], t) == QuotesOf(calls, t) + if c.Quote? && c.txId == t then [c.default] else []
  {
    assert (calls + [c])[..|calls + [c]| - 1] == calls;
  }

  lemma OneMoreInquiry(asked: seq<Inquiry>, q: Inquiry, t: nat)
    ensures About(asked + [q], t) == About(asked, t) + if q.txId == t then [q] else []
  {
    assert (asked + [q])[..|asked + [q]| - 1] == asked;
  }

  lemma OneMoreCommit(log: seq<Transaction>, txn: Transaction, t: nat)
    ensures Replacements(log + [txn], t) == Replacements(log, t) + if txn.SaveReplacement? && txn.previous.txId == t then 1 else 0
  {
    assert (log + [txn])[..|log + [txn]| - 1] == log;
  }

  /** The attempt was handed to the eth node since. */
  ghost predicate SentSince(before: seq<Call>, now: seq<Call>, attempt: Attempt) {
    before <= now && exists i :: |before| <= i < |now| && now[i].Sent? && now[i].x.attempt == attempt
  }

  lemma StillSent(s0: seq<Call>, s1: seq<Call>, s2: seq<Call>, attempt: Attempt)
    requires s0 <= s1 <= s2 && (SentSince(s0, s1, attempt) || SentSince(s1, s2, attempt))
    ensures SentSince(s0, s2, attempt)
  {
  }

  ghost predicate CalledSince(before: seq<Call>, now: seq<Call>, c: Call) {
    before <= now && exists i :: |before| <= i < |now| && now[i] == c
  }

  lemma StillCalled(s0: seq<Call>, s1: seq<Call>, s2: seq<Call>, c: Call)
    requires s0 <= s1 <= s2 && (CalledSince(s0, s1, c) || CalledSince(s1, s2, c))
    ensures CalledSince(s0, s2, c)
  {
  }

  /** The last of the calls. */
  ghost predicate Ends(calls: seq<Call>, c: Call) {
    calls != [] && calls[|calls| - 1] == c
  }

  ghost predicate EndsInTwo(calls: seq<Call>, c: Call, d: Call) {
    |calls| >= 2 && calls[|calls| - 2] == c && calls[|calls| - 1] == d
  }

  /** xs is all that was sent and answered about t meanwhile, and quotes are the default prices read for
      it; every sending but the first replaced an attempt. */
  ghost predicate Heard(t: nat, xs: seq<Exchange>, quotes: seq<int>, before: Moment, after: Moment) {
    && before.calls <= after.calls && |before.calls| + |xs| + |quotes| <= |after.calls| && before.outages <= after.outages
    && SendsOf(after.calls, t) == SendsOf(before.calls, t) + xs && QuotesOf(after.calls, t) == QuotesOf(before.calls, t) + quotes
    && Replacements(after.log, t) == Replacements(before.log, t) + |xs| - 1
  }

  /** What was sent and answered, starting with an attempt: each further one was sent because the node
      asked for more, at the price a bump makes of the one before and the default price read then. A
      last quote without a sending is of a bump or a replacement that failed. */
  ghost predicate Conversation(gas: GasConfig, xs: seq<Exchange>, quotes: seq<int>, attempt: Attempt, asksForMore: Option<SendError> -> bool) {
    && xs != [] && xs[0].attempt == attempt && |xs| - 1 <= |quotes| <= |xs|
    && forall i :: 0 <= i < |xs| - 1 ==>
         asksForMore(Classified(xs[i].raw)) && Raised(gas, quotes[i], xs[i].attempt.price, xs[i + 1].attempt.price)
  }

  /** The quote of a bump that led to no sending. */
  function InVain(xs: seq<Exchange>, quotes: seq<int>): Option<int> {
    if |quotes| == |xs| && quotes != [] then Some(quotes[|quotes| - 1]) else None
  }

  lemma LongerConversation(gas: GasConfig, x: Exchange, attempt: Attempt, quote: int, xs: seq<Exchange>, quotes: seq<int>, next: Attempt,
                           asksForMore: Option<SendError> -> bool)
    requires x.attempt == attempt && asksForMore(Classified(x.raw)) && Conversation(gas, xs, quotes, next, asksForMore)
    requires Raised(gas, quote, attempt.price, next.price)
    ensures Conversation(gas, [x] + xs, [quote] + quotes, attempt, asksForMore)
    ensures InVain([x] + xs, [quote] + quotes) == InVain(xs, quotes) && ([x] + xs)[|[x] + xs| - 1] == xs[|xs| - 1]
  {
  }

  /** A conversation is paid for: each replacement takes ETH_GAS_BUMP_WEI below the limit. */
  lemma {:induction false} ConversationIsPaid(gas: GasConfig, xs: seq<Exchange>, quotes: seq<int>, attempt: Attempt,
                                              asksForMore: Option<SendError> -> bool)
    requires Conversation(gas, xs, quotes, attempt, asksForMore)
    ensures Paid(gas, |xs| - 1, attempt.price)
    decreases |xs|
  {
    if |xs| > 1 {
      ConversationIsPaid(gas, xs[1..], quotes[1..], xs[1].attempt, asksForMore);
      OneMoreBump(gas, |xs| - 2, quotes[0], xs[1].attempt.price, attempt.price);
    }
  }

  /** First x, then a bump by a quote, then the rest. */
  lemma HeardMore(t: nat, x: Exchange, quote: int, xs: seq<Exchange>, quotes: seq<int>,
                  before: Moment, now: Moment, middle: Moment, after: Moment)
    requires Heard(t, [x], [], before, now) && Requoted(t, quote, 1, now, middle) && Heard(t, xs, quotes, middle, after)
    ensures Heard(t, [x] + xs, [quote] + quotes, before, after)
  {
    assert SendsOf(before.calls, t) + [x] + xs == SendsOf(before.calls, t) + ([x] + xs);
    assert QuotesOf(before.calls, t) + [quote] + quotes == QuotesOf(before.calls, t) + ([quote] + quotes);
  }

  /** One more default price was read for t, and at most one attempt of it replaced. */
  ghost predicate Requoted(t: nat, quote: int, replaced: nat, before: Moment, after: Moment) {
    && before.calls <= after.calls && |before.calls| < |after.calls| && before.outages <= after.outages
    && SendsOf(after.calls, t) == SendsOf(before.calls, t) && QuotesOf(after.calls, t) == QuotesOf(before.calls, t) + [quote]
    && Replacements(after.log, t) == Replacements(before.log, t) + replaced
  }

  /** Why no dearer attempt of t was saved, for that default price. */
  ghost predicate NoDearer(gas: GasConfig, t: nat, price: int, quote: int, why: Problem, before: Moment, after: Moment) {
    match why
    case DbFailure => before.outages < after.outages
    case BumpFailure => after.calls == before.calls + [Quote(t, quote)] && NoneWithinLimit(gas, quote, price)
    case KeyStoreFailure => Ends(after.calls, Signature(t, false))
    case _ => false
  }

  lemma HeardAndRequoted(t: nat, x: Exchange, quote: int, before: Moment, now: Moment, after: Moment)
    requires Heard(t, [x], [], before, now) && Requoted(t, quote, 0, now, after)
    ensures Heard(t, [x], [quote], before, after)
  {
  }

  /** Nothing was heard about t before. */
  lemma HeardSince(t: nat, xs: seq<Exchange>, quotes: seq<int>, earlier: Moment, before: Moment, after: Moment)
    requires Heard(t, xs, quotes, before, after) && Onward(earlier, before)
    requires SendsOf(before.calls, t) == SendsOf(earlier.calls, t) && QuotesOf(before.calls, t) == QuotesOf(earlier.calls, t)
    requires Replacements(before.log, t) == Replacements(earlier.log, t)
    ensures Heard(t, xs, quotes, earlier, after)
  {
  }

  /** The last exchange of those about t is about t. */
  lemma LastIsAbout(t: nat, xs: seq<Exchange>, quotes: seq<int>, before: Moment, after: Moment)
    requires Heard(t, xs, quotes, before, after) && xs != []
    ensures xs[|xs| - 1].attempt.txId == t
  {
    SendsAreAbout(after.calls, t);
    assert xs[|xs| - 1] in SendsOf(before.calls, t) + xs;
  }

  lemma {:induction false} SendsAreAbout(calls: seq<Call>, t: nat)
    ensures forall x :: x in SendsOf(calls, t) ==> x.attempt.txId == t
    decreases |calls|
  {
    if calls != [] {
      SendsAreAbout(calls[..|calls| - 1], t);
    }
  }

  /** Others neither send nor ask about what is mine. */
  ghost predicate LeftAlone(me: Process, db: Db, s0: seq<Call>, s: seq<Call>, q0: seq<Inquiry>, q: seq<Inquiry>) {
    forall t :: Owns(me, db, t) ==> SendsOf(s, t) == SendsOf(s0, t) && QuotesOf(s, t) == QuotesOf(s0, t) && About(q, t) == About(q0, t)
  }

  /** Nor do they replace attempts of it. */
  ghost predicate NotReplaced(me: Process, db: Db, log: seq<Transaction>, longer: seq<Transaction>) {
    forall t :: Owns(me, db, t) ==> Replacements(longer, t) == Replacements(log, t)
  }

  lemma NotMyReplacement(me: Process, db: Db, txn: Transaction, t: nat)
    requires Shape(db) && Disciplined(db, txn) && Concurrent(me, IssuerOf(db, txn)) && Owns(me, db, t)
    ensures !(txn.SaveReplacement? && txn.previous.txId == t)
  {
    if txn.SaveReplacement? {
      NotMySubject(me, db, txn, t);
    }
  }

  lemma {:induction false} OthersDoNotReplace(me: Process, w: World, log: seq<Transaction>, steps: seq<Transaction>, t: nat)
    requires Inv(w) && ByOthers(me, w, steps) && Owns(me, w.db, t)
    ensures Replacements(log + steps, t) == Replacements(log, t)
    decreases |steps|
  {
    if steps == [] {
      assert log + steps == log;
    } else {
      var before, last := steps[..|steps| - 1], steps[|steps| - 1];
      assert steps == before + [last];
      OthersDoNotReplace(me, w, log, before, t);
      LastDoesNotReplace(me, w, before, last, steps, t);
      OneMoreElse(log, before, last, steps, t);
    }
  }

  lemma OneMoreElse(log: seq<Transaction>, before: seq<Transaction>, last: Transaction, steps: seq<Transaction>, t: nat)
    requires steps == before + [last] && !(last.SaveReplacement? && last.previous.txId == t)
    ensures Replacements(log + steps, t) == Replacements(log + before, t)
  {
    assert log + steps == log + before + [last];
    OneMoreCommit(log + before, last, t);
  }

  lemma LastDoesNotReplace(me: Process, w: World, before: seq<Transaction>, last: Transaction, steps: seq<Transaction>, t: nat)
    requires Inv(w) && ByOthers(me, w, steps) && steps != [] && before == steps[..|steps| - 1] && last == steps[|steps| - 1]
    requires Owns(me, w.db, t)
    ensures !(last.SaveReplacement? && last.previous.txId == t)
  {
    RelyOnOthers(me, w, before);
    var db := Run(w, before).value.db;
    assert Frozen(w.db, db, t);
    NotMyReplacement(me, db, last, t);
  }

  lemma NoneReplaced(me: Process, w: World, log: seq<Transaction>, steps: seq<Transaction>)
    requires Inv(w) && ByOthers(me, w, steps)
    ensures NotReplaced(me, w.db, log, log + steps)
  {
    forall t | Owns(me, w.db, t)
      ensures Replacements(log + steps, t) == Replacements(log, t)
    {
      OthersDoNotReplace(me, w, log, steps, t);
    }
  }

  function Inserts(log: seq<Transaction>): nat
    decreases |log|
  {
    if log == [] then 0
    else Inserts(log[..|log| - 1]) + if log[|log| - 1].InsertTx? then 1 else 0
  }

  lemma OneInsertAtMost(db: Db, txn: Transaction, db': Db, a: Address)
    requires Applies(db, txn, db')
    ensures |UnstartedOf(db', a)| <= |UnstartedOf(db, a)| + if txn.InsertTx? then 1 else 0
  {
    forall t | t in UnstartedOf(db', a)
      ensures t in UnstartedOf(db, a) || (txn.InsertTx? && t == db.txSeq)
    {
      RowsFollowStateMachine(db, txn, db', t);
      if t !in db.txes {
        InsertTakesNextId(db, txn, db', t);
      }
    }
    var bound := UnstartedOf(db, a) + if txn.InsertTx? then {db.txSeq} else {};
    assert UnstartedOf(db', a) <= bound;
    Subset(UnstartedOf(db', a), bound);
  }

  lemma InsertTakesNextId(db: Db, txn: Transaction, db': Db, t: nat)
    requires Applies(db, txn, db') && txn.InsertTx? && t in db'.txes && t !in db.txes
    ensures t == db.txSeq
  {
  }

  lemma Subset(a: set<nat>, b: set<nat>)
    requires a <= b
    ensures |a| <= |b|
  {
    if a != {} {
      var x :| x in a;
      Subset(a - {x}, b - {x});
    }
  }

  lemma {:induction false} BacklogGrowsByInserts(w: World, log: seq<Transaction>, a: Address)
    requires Inv(w) && Run(w, log).Some?
    ensures |UnstartedOf(Run(w, log).value.db, a)| <= |UnstartedOf(w.db, a)| + Inserts(log)
    decreases |log|
  {
    if log != [] {
      var before := log[..|log| - 1];
      BacklogGrowsByInserts(w, before, a);
      RunsKeepInv(w, before);
      var w1 := Run(w, before).value;
      OneInsertAtMost(w1.db, log[|log| - 1], Step(w1, log[|log| - 1]).db, a);
    }
  }

  lemma BacklogsGrowByInserts(w: World, log: seq<Transaction>)
    requires Inv(w) && Run(w, log).Some?
    ensures forall a :: |UnstartedOf(Run(w, log).value.db, a)| <= |UnstartedOf(w.db, a)| + Inserts(log)
  {
    forall a
      ensures |UnstartedOf(Run(w, log).value.db, a)| <= |UnstartedOf(w.db, a)| + Inserts(log)
    {
      BacklogGrowsByInserts(w, log, a);
    }
  }

  lemma RelyIsReflexive(me: Process, db: Db)
    ensures Rely(me, db, db)
  {
  }

  class Store {
    var db: Db
    ghost const addresses: set<Address>
    ghost var world: World
    ghost var log: seq<Transaction>
    ghost var calls: seq<Call>     // what was sent, with the answers, and every other call
    ghost var asked: seq<Inquiry>  // every request for a receipt, with its answer
    ghost var outages: nat         // how often the process at hand could not reach the database
    ghost var arrivals: nat        // how many transactions are still to be inserted, any finite number

    ghost predicate Valid()
      reads this
    {
      world.db == db && Was(log, world)
    }

    lemma InvHolds()
      requires Valid()
      ensures Inv(world)
    {
      assert MadeFor(addresses);
      FreshInv(addresses);
      RunsKeepInv(Fresh(addresses), log);
    }

    ghost function Now(): Moment
      reads this
    {
      Moment(world, log, calls, asked, outages)
    }

    /** w is what the tables were when the log was l. Only proofs that ask for the addresses the store
        was made for unfold the run. */
    ghost predicate Was(l: seq<Transaction>, w: World) {
      forall a {:trigger MadeFor(a)} :: MadeFor(a) ==> Run(Fresh(a), l) == Some(w)
    }

    ghost predicate MadeFor(a: set<Address>) {
      a == addresses
    }

    lemma WasLater(l0: seq<Transaction>, w0: World, l1: seq<Transaction>, w1: World)
      requires Was(l0, w0) && Was(l1, w1) && l0 <= l1
      ensures Inv(w0) && Inv(w1) && Later(w0, w1)
    {
      assert MadeFor(addresses);
      FreshInv(addresses);
      RunIsLater(Fresh(addresses), l0, l1);
      RunsKeepInv(Fresh(addresses), l0);
      RunsKeepInv(Fresh(addresses), l1);
    }

    lemma LastStep(w: World, before: seq<Transaction>, txn: Transaction)
      requires Valid() && log == before + [txn] && Was(before, w)
      ensures Inv(w) && Inv(world) && Enabled(w, txn) && world == Step(w, txn)
    {
      assert MadeFor(addresses);
      assert log[..|log| - 1] == before;
      FreshInv(addresses);
      RunsKeepInv(Fresh(addresses), before);
      RunsKeepInv(Fresh(addresses), log);
    }

    constructor (addresses: set<Address>, ghost arrivals: nat)
      ensures Valid() && log == [] && calls == [] && asked == [] && this.arrivals == arrivals
      ensures db == Fresh(addresses).db
    {
      db := Fresh(addresses).db;
      this.addresses, world := addresses, Fresh(addresses);
      log, calls, asked, outages, this.arrivals := [], [], [], 0, arrivals;
    }

    /** The others commit any number of transactions; a caller learns nothing more than that. */
    method OthersRun(ghost me: Process) returns (ghost steps: seq<Transaction>)
      requires Valid()
      modifies this
      ensures ByOthers(me, old(world), steps) && Run(old(world), steps) == Some(world) && world.db == db
      ensures log == old(log) + steps && old(calls) <= calls && old(asked) <= asked
      ensures LeftAlone(me, old(db), old(calls), calls, old(asked), asked)
      ensures arrivals + Inserts(steps) == old(arrivals) && outages == old(outages)
    {
      steps := [];
    }

    method Interleave(ghost me: Process)
      requires Valid()
      modifies this
      ensures Valid() && Rely(me, old(db), db)
      ensures old(log) <= log && old(calls) <= calls && old(asked) <= asked && outages == old(outages)
      ensures LeftAlone(me, old(db), old(calls), calls, old(asked), asked) && NotReplaced(me, old(db), old(log), log)
      ensures forall a :: arrivals + |UnstartedOf(db, a)| <= old(arrivals + |UnstartedOf(db, a)|)
    {
      InvHolds();
      ghost var steps := OthersRun(me);
      RelyOnOthers(me, old(world), steps);
      assert Was(log, world) by {
        assert MadeFor(addresses);
        RunsCompose(Fresh(addresses), old(log), steps);
      }
      BacklogsGrowByInserts(old(world), steps);
      NoneReplaced(me, old(world), old(log), steps);
    }

    lemma CommitGoesOn(txn: Transaction)
      requires Valid() && Enabled(world, txn)
      ensures Was(log + [txn], Step(world, txn))
    {
      assert MadeFor(addresses);
      assert (log + [txn])[..|log + [txn]| - 1] == log;
    }

    /** Runs one transaction, all or nothing. */
    method Transact(ghost me: Process, txn: Transaction) returns (r: Status)
      requires Valid() && Disciplined(db, txn) && Mine(me, IssuerOf(db, txn))
      modifies this
      ensures Valid() && calls == old(calls) && asked == old(asked) && arrivals == old(arrivals)
      ensures r.Ok? ==> Applies(old(db), txn, db) && log == old(log) + [txn]
      ensures !r.Ok? ==> db == old(db) && log == old(log)
      ensures !r.Ok? ==> r.why.DbFailure? || (r.why.Rejected? && RollsBackOnlyIf(db, txn, RolledBack(r.why.why)))
      ensures outages == old(outages) + if r == Failed(DbFailure) then 1 else 0
    {
      var unreachable: bool := *;
      if unreachable {
        outages := outages + 1;
        return Failed(DbFailure);
      }
      assert Shape(db) && RollsBackOnlyIf(db, txn, Execute(db, txn)) by {
        InvHolds();
        GuardsNeverFire(world, txn);
      }
      var outcome := Execute(db, txn);
      if outcome.RolledBack? {
        return Failed(Rejected(outcome.why));
      }
      CommitGoesOn(txn);
      db, world, log := outcome.db, Step(world, txn), log + [txn];
      return Ok;
    }

    /** sendTransaction: the node may answer anything, and that is what is returned but for an
        already known transaction, which counts as sent. */
    method SendTransaction(ghost me: Process, attempt: Attempt) returns (answer: Option<SendError>)
      requires Valid() && Owns(me, db, attempt.txId)
      modifies this
      ensures Valid() && Rely(me, old(db), db) && Onward(old(Now()), Now()) && outages == old(outages)
      ensures calls != [] && calls[|calls| - 1].Sent? && Heard(attempt.txId, [calls[|calls| - 1].x], [], old(Now()), Now())
      ensures var x := calls[|calls| - 1].x;
              && x.attempt == attempt && (answer.None? <==> x.raw.None? || x.raw.value.alreadyInMempool)
              && (answer.Some? ==> answer == x.raw) && answer == Classified(x.raw)
      ensures forall a :: arrivals + |UnstartedOf(db, a)| <= old(arrivals + |UnstartedOf(db, a)|)
    {
      Interleave(me);
      var raw: Option<SendError> := *;
      OneMoreCall(calls, Sent(Exchange(attempt, raw)), attempt.txId);
      calls := calls + [Sent(Exchange(attempt, raw))];
      answer := Classified(raw);
    }

    /** Reads the default gas price of the configuration, for an attempt of t. */
    method DefaultPrice(ghost t: nat) returns (default: int)
      requires Valid()
      modifies this`calls
      ensures Valid() && calls == old(calls) + [Quote(t, default)]
      ensures SendsOf(calls, t) == SendsOf(old(calls), t) && QuotesOf(calls, t) == QuotesOf(old(calls), t) + [default]
    {
      default := *;
      OneMoreCall(calls, Quote(t, default), t);
      calls := calls + [Quote(t, default)];
    }

    /** Asks the key store for the signature that newAttempt needs. */
    method Sign(ghost t: nat) returns (signed: bool)
      requires Valid()
      modifies this`calls
      ensures Valid() && calls == old(calls) + [Signature(t, signed)]
      ensures SendsOf(calls, t) == SendsOf(old(calls), t) && QuotesOf(calls, t) == QuotesOf(old(calls), t)
    {
      signed := *;
      OneMoreCall(calls, Signature(t, signed), t);
      calls := calls + [Signature(t, signed)];
    }

    /** BumpGas on the price of an attempt of t, and the signature that newAttempt needs for a dearer one. */
    method DearerOffer(gas: GasConfig, ghost t: nat, price: int) returns (r: Status, higher: int, ghost quote: int)
      requires Valid() && gas.bumpWei >= 1
      modifies this`calls
      ensures Valid() && old(calls) <= calls && |calls| > |old(calls)|
      ensures SendsOf(calls, t) == SendsOf(old(calls), t) && QuotesOf(calls, t) == QuotesOf(old(calls), t) + [quote]
      ensures match r
              case Ok => Raised(gas, quote, price, higher) && price < higher && Headroom(gas, higher) < Headroom(gas, price)
              case Failed(BumpFailure) => calls == old(calls) + [Quote(t, quote)] && NoneWithinLimit(gas, quote, price)
              case Failed(KeyStoreFailure) => Ends(calls, Signature(t, false))
              case _ => false
    {
      var default := DefaultPrice(t);
      quote := default;
      var bump := BumpGas(gas, default, price);
      BumpRaises(gas, default, price);
      if !bump.Bumped? {
        BumpIsLeastSufficient(gas, default, price, price);
        return Failed(BumpFailure), price, quote;
      }
      BumpIsLeastSufficient(gas, default, price, bump.price);
      var signed := Sign(t);
      return if signed then Ok else Failed(KeyStoreFailure), bump.price, quote;
    }

    /** PendingNonceAt: the nonce the eth node has next for a, or an error. */
    method PendingNonceAt(a: Address) returns (nonce: Option<int>)
      requires Valid()
      modifies this`calls
      ensures Valid() && calls == old(calls) + [NonceRequest(a, nonce)]
      ensures forall t :: SendsOf(calls, t) == SendsOf(old(calls), t) && QuotesOf(calls, t) == QuotesOf(old(calls), t)
    {
      nonce := *;
      forall t
        ensures SendsOf(calls + [NonceRequest(a, nonce)], t) == SendsOf(calls, t)
        ensures QuotesOf(calls + [NonceRequest(a, nonce)], t) == QuotesOf(calls, t)
      {
        OneMoreCall(calls, NonceRequest(a, nonce), t);
      }
      calls := calls + [NonceRequest(a, nonce)];
    }

    /** time.Now, for the first sending of t. */
    method Time(ghost t: nat) returns (now: int)
      requires Valid()
      modifies this`calls
      ensures Valid() && calls == old(calls) + [Clock(t, now)]
      ensures SendsOf(calls, t) == SendsOf(old(calls), t) && QuotesOf(calls, t) == QuotesOf(old(calls), t)
    {
      now := *;
      OneMoreCall(calls, Clock(t, now), t);
      calls := calls + [Clock(t, now)];
    }

    /** Every query needs the database; nothing else can go wrong with it. */
    method Reach() returns (r: Status)
      requires Valid()
      modifies this`outages
      ensures Valid() && (r.Ok? || r == Failed(DbFailure))
      ensures outages == old(outages) + if r.Ok? then 0 else 1
    {
      var reached: bool := *;
      if reached {
        return Ok;
      }
      outages := outages + 1;
      return Failed(DbFailure);
    }

    /** fetchReceipt: the node may answer anything. */
    method FetchReceipt(ghost me: Process, ghost t: nat, hash: nat) returns (answer: ReceiptAnswer)
      requires Valid() && Owns(me, db, t)
      modifies this
      ensures Valid() && Rely(me, old(db), db)
      ensures old(log) <= log && old(calls) <= calls && old(asked) <= asked && outages == old(outages)
      ensures About(asked, t) == About(old(asked), t) + [Inquiry(t, hash, answer)]
      ensures forall u :: Owns(me, old(db), u) && u != t ==> About(asked, u) == About(old(asked), u)
    {
      Interleave(me);
      answer := *;
      forall u
        ensures About(asked + [Inquiry(t, hash, answer)], u) == About(asked, u) + if u == t then [Inquiry(t, hash, answer)] else []
      {
        OneMoreInquiry(asked, Inquiry(t, hash, answer), u);
      }
      asked := asked + [Inquiry(t, hash, answer)];
    }
  }
}
