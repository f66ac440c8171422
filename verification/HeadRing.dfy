/** headRingBuffer of core/services/head_tracker.go: its goroutine and the consumer of its channel,
    under every schedule. */
module HeadRing {
  import opened Options

  datatype Head = Head(number: int, hash: nat)

  /** What run is about to do. */
  datatype Producer =
    | Receiving
    | Sending(head: Head)    // the outer select
    | Dropping(head: Head)   // the inner select
    | Resending(head: Head)  // the plain, blocking send after it
    | Closed

  /** left holds every head that left the channel, oldest first, and whether the consumer got it. */
  datatype Left = Left(head: Head, delivered: bool)

  datatype Ring = Ring(size: nat, channel: seq<Head>, producer: Producer, received: seq<Head>, left: seq<Left>)

  function Fresh(size: nat): Ring {
    Ring(size, [], Receiving, [], [])
  }

  datatype Action = Receive(head: Option<Head>) | CloseInput | Produce | Consume

  predicate Enabled(r: Ring, a: Action) {
    match a
    case Receive(_) => r.producer.Receiving?
    case CloseInput => r.producer.Receiving?
    case Produce => r.producer.Sending? || r.producer.Dropping? || (r.producer.Resending? && |r.channel| < r.size)
    case Consume => r.channel != []
  }

  function Step(r: Ring, a: Action): Ring
    requires Enabled(r, a)
  {
    match a
    case Receive(None) => r
    case Receive(Some(h)) => r.(producer := Sending(h), received := r.received + [h])
    case CloseInput => r.(producer := Closed)
    case Consume => r.(channel := r.channel[1..], left := r.left + [Left(r.channel[0], true)])
    case Produce =>
      match r.producer
      case Sending(h) =>
        if |r.channel| < r.size then r.(channel := r.channel + [h], producer := Receiving) else r.(producer := Dropping(h))
      case Dropping(h) =>
        if r.channel != [] then r.(channel := r.channel[1..], left := r.left + [Left(r.channel[0], false)], producer := Resending(h))
        else r.(producer := Resending(h))
      case Resending(h) => r.(channel := r.channel + [h], producer := Receiving)
  }

  ghost function Run(size: nat, actions: seq<Action>): Option<Ring>
    decreases |actions|
  {
    if actions == [] then Some(Fresh(size)) else
      var before := Run(size, actions[..|actions| - 1]);
      var last := actions[|actions| - 1];
      if before.Some? && Enabled(before.value, last) then Some(Step(before.value, last)) else None
  }

  ghost predicate Reachable(r: Ring) {
    exists actions :: Run(r.size, actions) == Some(r)
  }

  // ---- bookkeeping ----

  function Heads(left: seq<Left>): seq<Head> {
    seq(|left|, i requires 0 <= i < |left| => left[i].head)
  }

  function InHand(p: Producer): seq<Head> {
    if p.Sending? || p.Dropping? || p.Resending? then [p.head] else []
  }

  function Delivered(left: seq<Left>): seq<Head> {
    if left == [] then [] else
      Delivered(left[..|left| - 1]) + if left[|left| - 1].delivered then [left[|left| - 1].head] else []
  }

  function Dropped(left: seq<Left>): seq<Head> {
    if left == [] then [] else
      Dropped(left[..|left| - 1]) + if left[|left| - 1].delivered then [] else [left[|left| - 1].head]
  }

  ghost predicate Inv(r: Ring) {
    && |r.channel| <= r.size
    && (r.producer.Resending? ==> |r.channel| < r.size)
    && r.received == Heads(r.left) + r.channel + InHand(r.producer)
    && (r.left != [] && !r.left[|r.left| - 1].delivered ==> r.channel != [] || r.producer.Resending?)
  }

  lemma HeadsAppend(left: seq<Left>, l: Left)
    ensures Heads(left + [l]) == Heads(left) + [l.head]
  {
  }

  lemma StepKeepsInv(r: Ring, a: Action)
    requires 1 <= r.size && Inv(r) && Enabled(r, a)
    ensures Inv(Step(r, a))
  {
    var r' := Step(r, a);
    if a.Consume? || (a.Produce? && r.producer.Dropping? && r.channel != []) {
      HeadsAppend(r.left, r'.left[|r.left|]);
      assert r.channel == [r.channel[0]] + r.channel[1..];
    }
  }

  lemma {:induction false} RunKeepsInv(size: nat, actions: seq<Action>)
    requires 1 <= size && Run(size, actions).Some?
    ensures Inv(Run(size, actions).value) && Run(size, actions).value.size == size
    decreases |actions|
  {
    if actions != [] {
      var before := actions[..|actions| - 1];
      RunKeepsInv(size, before);
      StepKeepsInv(Run(size, before).value, actions[|actions| - 1]);
    }
  }

  // ---- what the buffer promises ----

  /** With room for at least one head no send ever blocks: the goroutine is only ever waiting for input. */
  lemma SendsNeverBlock(r: Ring)
    requires Reachable(r) && 1 <= r.size
    ensures Enabled(r, Produce) || r.producer.Receiving? || r.producer.Closed?
  {
    var actions :| Run(r.size, actions) == Some(r);
    RunKeepsInv(r.size, actions);
  }

  /** An unbuffered channel would leave it stuck in the plain send with nobody to take the head. */
  lemma UnbufferedGetsStuck(h: Head)
    ensures exists r :: Reachable(r) && r.size == 0 && !Enabled(r, Produce) && !Enabled(r, Consume) && r.producer == Resending(h)
  {
    var r := Ring(0, [], Resending(h), [h], []);
    var first: seq<Action> := [] + [Receive(Some(h))];
    Append(0, [], Receive(Some(h)));
    assert [] + [h] == [h];
    assert Run(0, first) == Some(Ring(0, [], Sending(h), [h], []));
    Append(0, first, Produce);
    Append(0, first + [Produce], Produce);
    assert Run(0, first + [Produce] + [Produce]) == Some(r);
  }

  lemma Append(size: nat, actions: seq<Action>, a: Action)
    requires Run(size, actions).Some? && Enabled(Run(size, actions).value, a)
    ensures Run(size, actions + [a]) == Some(Step(Run(size, actions).value, a))
  {
    assert (actions + [a])[..|actions + [a]| - 1] == actions;
  }

  /** Heads leave in the order they came in; each was delivered, was dropped, or is still there. */
  lemma NothingIsLost(r: Ring)
    requires Reachable(r) && 1 <= r.size
    ensures r.received == Heads(r.left) + r.channel + InHand(r.producer)
    ensures |r.received| == |Delivered(r.left)| + |Dropped(r.left)| + |r.channel| + |InHand(r.producer)|
    ensures multiset(r.received) == multiset(Delivered(r.left)) + multiset(Dropped(r.left)) + multiset(r.channel) + multiset(InHand(r.producer))
  {
    var actions :| Run(r.size, actions) == Some(r);
    RunKeepsInv(r.size, actions);
    LeftIsSplit(r.left);
  }

  lemma {:induction false} LeftIsSplit(left: seq<Left>)
    ensures multiset(Heads(left)) == multiset(Delivered(left)) + multiset(Dropped(left))
    ensures |left| == |Delivered(left)| + |Dropped(left)|
  {
    if left != [] {
      var before, l := left[..|left| - 1], left[|left| - 1];
      LeftIsSplit(before);
      assert left == before + [l];
      HeadsAppend(before, l);
    }
  }

  /** sub is whole with some elements left out. */
  ghost predicate Within(sub: seq<Head>, whole: seq<Head>)
    decreases |whole|
  {
    sub == [] ||
    (whole != [] &&
     (Within(sub, whole[..|whole| - 1])
      || (sub[|sub| - 1] == whole[|whole| - 1] && Within(sub[..|sub| - 1], whole[..|whole| - 1]))))
  }

  lemma {:induction false} WithinLonger(sub: seq<Head>, whole: seq<Head>, more: seq<Head>)
    requires Within(sub, whole)
    ensures Within(sub, whole + more)
    decreases |more|
  {
    if more == [] {
      assert whole + more == whole;
    } else {
      var longer := whole + more;
      assert longer[..|longer| - 1] == whole + more[..|more| - 1];
      WithinLonger(sub, whole, more[..|more| - 1]);
    }
  }

  lemma {:induction false} DeliveredIsWithin(left: seq<Left>)
    ensures Within(Delivered(left), Heads(left))
  {
    if left != [] {
      var before, l := left[..|left| - 1], left[|left| - 1];
      DeliveredIsWithin(before);
      assert left == before + [l];
      HeadsAppend(before, l);
      assert Heads(left)[..|left| - 1] == Heads(before);
      assert Delivered(left) == Delivered(before) + if l.delivered then [l.head] else [];
      if l.delivered {
        assert Delivered(left)[..|Delivered(left)| - 1] == Delivered(before);
      } else {
        assert Delivered(left) == Delivered(before);
      }
    }
  }

  /** The consumer sees an in-order subsequence of what was received. */
  lemma DeliveredInOrder(r: Ring)
    requires Reachable(r) && 1 <= r.size
    ensures Within(Delivered(r.left), r.received)
  {
    var actions :| Run(r.size, actions) == Some(r);
    RunKeepsInv(r.size, actions);
    DeliveredIsWithin(r.left);
    WithinLonger(Delivered(r.left), Heads(r.left), r.channel + InHand(r.producer));
    assert r.received == Heads(r.left) + (r.channel + InHand(r.producer));
  }

  /** The newest head is never the one that is dropped: it is queued, last in line, or it was the
      last one the consumer got. */
  lemma NewestSurvives(r: Ring)
    requires Reachable(r) && 1 <= r.size && r.received != [] && (r.producer.Receiving? || r.producer.Closed?)
    ensures var newest := r.received[|r.received| - 1];
            if r.channel != [] then r.channel[|r.channel| - 1] == newest
            else Delivered(r.left) != [] && Delivered(r.left)[|Delivered(r.left)| - 1] == newest
  {
    var actions :| Run(r.size, actions) == Some(r);
    RunKeepsInv(r.size, actions);
    if r.channel == [] {
      assert r.received == Heads(r.left);
    }
  }

  /** A head is dropped only to make room for a newer one. */
  lemma DropsMakeRoom(r: Ring, a: Action)
    requires Reachable(r) && 1 <= r.size && Enabled(r, a)
    ensures |Dropped(Step(r, a).left)| <= |Dropped(r.left)| + 1
    ensures Dropped(Step(r, a).left) != Dropped(r.left) ==>
              Step(r, a).producer.Resending? && r.received != [] && r.received[|r.received| - 1] == Step(r, a).producer.head
  {
    var actions :| Run(r.size, actions) == Some(r);
    RunKeepsInv(r.size, actions);
    DropStep(r, a);
  }

  lemma DroppedAppend(left: seq<Left>, l: Left)
    ensures Dropped(left + [l]) == Dropped(left) + if l.delivered then [] else [l.head]
  {
    assert (left + [l])[..|left + [l]| - 1] == left;
  }

  lemma DropStep(r: Ring, a: Action)
    requires Inv(r) && Enabled(r, a)
    ensures |Dropped(Step(r, a).left)| <= |Dropped(r.left)| + 1
    ensures Dropped(Step(r, a).left) != Dropped(r.left) ==>
              Step(r, a).producer.Resending? && r.received != [] && r.received[|r.received| - 1] == Step(r, a).producer.head
  {
    if r.channel != [] {
      DroppedAppend(r.left, Left(r.channel[0], true));
      DroppedAppend(r.left, Left(r.channel[0], false));
    }
  }

  /** In round i of the run, the inner select takes the next head to leave out of the channel. */
  ghost predicate DropsAt(size: nat, actions: seq<Action>, i: nat, k: nat) {
    && i < |actions| && actions[i] == Produce && Run(size, actions[..i]).Some?
    && var r := Run(size, actions[..i]).value;
    r.producer.Dropping? && r.channel != [] && |r.left| == k
  }

  /** That is the next in the order they were received. */
  lemma FrontIsNext(r: Ring)
    requires Inv(r) && r.channel != []
    ensures |r.left| < |r.received| && r.received[|r.left|] == r.channel[0]
  {
    assert r.received == Heads(r.left) + (r.channel + InHand(r.producer));
  }

  lemma ReceivedGrows(r: Ring, a: Action)
    requires Enabled(r, a)
    ensures r.received <= Step(r, a).received
  {
  }

  ghost predicate DropsFrontAt(size: nat, actions: seq<Action>, i: nat, k: nat, received: seq<Head>) {
    DropsAt(size, actions, i, k) && k < |received| && Run(size, actions[..i]).value.channel[0] == received[k]
  }

  /** What is dropped in round i is the k-th head received, which is in front. */
  lemma {:induction false} DropsTheFront(size: nat, actions: seq<Action>, i: nat, k: nat)
    requires 1 <= size && Run(size, actions).Some? && DropsAt(size, actions, i, k)
    ensures DropsFrontAt(size, actions, i, k, Run(size, actions).value.received)
    decreases |actions|
  {
    var n := |actions| - 1;
    var before := actions[..n];
    ReceivedGrows(Run(size, before).value, actions[n]);
    if i < n {
      assert before[..i] == actions[..i];
      DropsTheFront(size, before, i, k);
    } else {
      RunKeepsInv(size, before);
      FrontIsNext(Run(size, before).value);
    }
  }

  /** Exactly these heads are dropped: the k-th received is, iff in some round of the run the inner
      select runs with it in front of the channel. */
  lemma DroppedIff(size: nat, actions: seq<Action>, k: nat)
    requires 1 <= size && Run(size, actions).Some?
    ensures var r := Run(size, actions).value;
            k < |r.left| && !r.left[k].delivered <==> exists i: nat :: DropsFrontAt(size, actions, i, k, r.received)
  {
    DroppedSomewhere(size, actions, k);
    if i: nat :| DropsAt(size, actions, i, k) {
      DropsTheFront(size, actions, i, k);
    }
  }

  lemma {:induction false} DroppedSomewhere(size: nat, actions: seq<Action>, k: nat)
    requires 1 <= size && Run(size, actions).Some?
    ensures var r := Run(size, actions).value;
            k < |r.left| && !r.left[k].delivered <==> exists i: nat :: DropsAt(size, actions, i, k)
    decreases |actions|
  {
    if actions != [] {
      var n := |actions| - 1;
      var before := actions[..n];
      DroppedSomewhere(size, before, k);
      RunKeepsInv(size, before);
      forall i | 0 <= i < n
        ensures DropsAt(size, actions, i, k) <==> DropsAt(size, before, i, k)
      {
        assert before[..i] == actions[..i];
      }
      LastDrops(Run(size, before).value, actions[n], k);
      assert DropsAt(size, actions, n, k) <==> DropsNow(Run(size, before).value, actions[n], k);
      if k < |Run(size, before).value.left| && !Run(size, before).value.left[k].delivered {
        var i: nat :| DropsAt(size, before, i, k);
        assert DropsAt(size, actions, i, k);
      }
    }
  }

  predicate DropsNow(r: Ring, a: Action, k: nat) {
    a == Produce && r.producer.Dropping? && r.channel != [] && |r.left| == k
  }

  lemma LastDrops(r: Ring, a: Action, k: nat)
    requires Enabled(r, a)
    ensures var r' := Step(r, a);
            k < |r'.left| && !r'.left[k].delivered <==> (k < |r.left| && !r.left[k].delivered) || DropsNow(r, a, k)
  {
  }
}
