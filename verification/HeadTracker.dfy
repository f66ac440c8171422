/** HeadTracker of core/services/head_tracker.go: which heads reach the callbacks. */
module HeadTracker {
  import opened Options
  import opened HeadRing

  /** GreaterThan; nothing seen yet is below everything. */
  predicate Beats(h: Head, seen: Option<Head>) {
    seen.None? || h.number > seen.value.number
  }

  /** The highest head after seeing heads, the first of several with the same number. */
  function Highest(first: Option<Head>, heads: seq<Head>): Option<Head> {
    if heads == [] then first else
      var before := Highest(first, heads[..|heads| - 1]);
      if Beats(heads[|heads| - 1], before) then Some(heads[|heads| - 1]) else before
  }

  /** The heads that are higher than everything before them. */
  function Records(first: Option<Head>, heads: seq<Head>): seq<Head> {
    if heads == [] then [] else
      var before := heads[..|heads| - 1];
      Records(first, before) + if Beats(heads[|heads| - 1], Highest(first, before)) then [heads[|heads| - 1]] else []
  }

  ghost predicate Increasing(heads: seq<Head>) {
    forall i, j :: 0 <= i < j < |heads| ==> heads[i].number < heads[j].number
  }

  lemma {:induction false} HighestIsMaximum(first: Option<Head>, heads: seq<Head>)
    ensures heads != [] ==> Highest(first, heads).Some?
    ensures first.Some? ==> Highest(first, heads).Some? && first.value.number <= Highest(first, heads).value.number
    ensures forall h :: h in heads ==> h.number <= Highest(first, heads).value.number
    ensures Highest(first, heads) == first || Highest(first, heads).value in heads
  {
    if heads != [] {
      HighestIsMaximum(first, heads[..|heads| - 1]);
      assert heads == heads[..|heads| - 1] + [heads[|heads| - 1]];
    }
  }

  lemma {:induction false} RecordsAreHeads(first: Option<Head>, heads: seq<Head>)
    ensures forall h :: h in Records(first, heads) ==> h in heads && Beats(h, first)
  {
    if heads != [] {
      var before := heads[..|heads| - 1];
      RecordsAreHeads(first, before);
      HighestIsMaximum(first, before);
      assert heads == before + [heads[|heads| - 1]];
    }
  }

  lemma {:induction false} LastRecordIsHighest(first: Option<Head>, heads: seq<Head>)
    ensures Highest(first, heads) == if Records(first, heads) == [] then first else Some(Records(first, heads)[|Records(first, heads)| - 1])
  {
    if heads != [] {
      LastRecordIsHighest(first, heads[..|heads| - 1]);
    }
  }

  lemma {:induction false} RecordsIncrease(first: Option<Head>, heads: seq<Head>)
    ensures Increasing(Records(first, heads))
  {
    if heads != [] {
      var before := heads[..|heads| - 1];
      RecordsIncrease(first, before);
      LastRecordIsHighest(first, before);
      if Beats(heads[|heads| - 1], Highest(first, before)) {
        LongerIncreases(Records(first, before), heads[|heads| - 1]);
      }
    }
  }

  /** Seeing more heads later is the same as seeing all of them at once. */
  lemma {:induction false} SeeingMore(first: Option<Head>, heads: seq<Head>, more: seq<Head>)
    ensures Highest(first, heads + more) == Highest(Highest(first, heads), more)
    ensures Records(first, heads + more) == Records(first, heads) + Records(Highest(first, heads), more)
    decreases |more|
  {
    if more == [] {
      assert heads + more == heads;
    } else {
      var last := more[|more| - 1];
      SeeingMore(first, heads, more[..|more| - 1]);
      assert heads + more == heads + more[..|more| - 1] + [last];
      assert (heads + more)[..|heads + more| - 1] == heads + more[..|more| - 1];
    }
  }

  /** The next head of a subscription is a record iff it beats all seen before and since. */
  lemma NextRecord(first: Option<Head>, handled: seq<Head>, heads: seq<Head>, i: nat)
    requires i < |heads|
    ensures handled + heads[..i + 1] == handled + heads[..i] + [heads[i]]
    ensures Records(Highest(first, handled), heads[..i + 1])
            == Records(Highest(first, handled), heads[..i])
               + if Beats(heads[i], Highest(first, handled + heads[..i])) then [heads[i]] else []
  {
    SeeingMore(first, handled, heads[..i]);
    assert heads[..i + 1] == heads[..i] + [heads[i]];
    assert heads[..i + 1][..i] == heads[..i];
  }

  lemma LongerIncreases(heads: seq<Head>, last: Head)
    requires Increasing(heads) && (heads != [] ==> heads[|heads| - 1].number < last.number)
    ensures Increasing(heads + [last])
  {
  }

  lemma {:induction false} WithinIncreases(sub: seq<Head>, whole: seq<Head>)
    requires Within(sub, whole) && Increasing(whole)
    ensures Increasing(sub) && forall h :: h in sub ==> h in whole
    decreases |whole|
  {
    if sub != [] {
      var shorter := whole[..|whole| - 1];
      if Within(sub, shorter) {
        WithinIncreases(sub, shorter);
      } else {
        var front := sub[..|sub| - 1];
        WithinIncreases(front, shorter);
        forall i | 0 <= i < |front|
          ensures sub[i].number < sub[|sub| - 1].number
        {
          assert front[i] in shorter;
        }
        assert sub == front + [sub[|sub| - 1]];
      }
    }
  }

  lemma WithinBoth(sub: seq<Head>, whole: seq<Head>, h: Head)
    requires Within(sub, whole)
    ensures Within(sub, whole + [h]) && Within(sub + [h], whole + [h])
  {
    assert (whole + [h])[..|whole + [h]| - 1] == whole;
    assert (sub + [h])[..|sub + [h]| - 1] == sub;
  }

  class Tracker {
    var highestSeenHead: Option<Head>
    ghost const first: Option<Head>  // what Start loads from the database
    ghost var handled: seq<Head>     // every head handleNewHead was called with
    ghost var called: seq<Head>      // every head the callbacks were called with

    ghost predicate Valid()
      reads this
    {
      highestSeenHead == Highest(first, handled) && Within(called, Records(first, handled))
    }

    constructor (first: Option<Head>)
      ensures Valid() && this.first == first && handled == [] && called == []
    {
      this.first, highestSeenHead := first, first;
      handled, called := [], [];
    }

    /** The heads given to callbacks have strictly increasing numbers, whatever went wrong between. */
    lemma CallbacksIncrease()
      requires Valid()
      ensures Increasing(called)
      ensures forall h :: h in called ==> h in handled && Beats(h, first)
    {
      RecordsIncrease(first, handled);
      RecordsAreHeads(first, handled);
      WithinIncreases(called, Records(first, handled));
    }

    /** Save: the highest head is noted even if the database then fails. */
    method Save(h: Head) returns (ok: bool)
      requires Valid()
      modifies this`highestSeenHead, this`handled
      ensures Valid() && handled == old(handled) + [h]
    {
      assert (handled + [h])[..|handled + [h]| - 1] == handled;
      WithinBoth(called, Records(first, handled), h);
      assert Records(first, handled) + [] == Records(first, handled);
      if Beats(h, highestSeenHead) {
        highestSeenHead := Some(h);
      }
      handled := handled + [h];
      ok := *;
    }

    /** handleNewHead and handleNewHighestHead. */
    method HandleNewHead(head: Head) returns (ok: bool)
      requires Valid()
      modifies this
      ensures Valid() && handled == old(handled) + [head]
      ensures called == old(called) || (called == old(called) + [head] && Beats(head, Highest(first, old(handled))))
      ensures ok && Beats(head, Highest(first, old(handled))) ==> called == old(called) + [head]
    {
      var prevHead := highestSeenHead;
      ghost var before := handled;
      ok := Save(head);
      if !ok {
        return;
      }
      if prevHead.None? || head.number > prevHead.value.number {
        var chained: bool := *;
        if !chained {
          return false;
        }
        assert handled[..|handled| - 1] == before;
        WithinBoth(called, Records(first, before), head);
        called := called + [head];
      }
    }

    /** receiveHeaders, on what the ring buffer delivers, until an error ends it. It is called again
        after every resubscription, and goes on from the highest head seen so far. */
    method ReceiveHeaders(heads: seq<Head>) returns (ok: bool)
      requires Valid()
      modifies this
      ensures Valid() && old(handled) <= handled <= old(handled) + heads && old(called) <= called
      ensures ok ==> handled == old(handled) + heads && called == old(called) + Records(Highest(first, old(handled)), heads)
      ensures !ok ==> Stopped(heads, |handled| - old(|handled|), called[old(|called|)..], Highest(first, old(handled)))
    {
      ghost var handled0, called0 := handled, called;
      for i := 0 to |heads|
        invariant Valid() && handled == handled0 + heads[..i]
        invariant called == called0 + Records(Highest(first, handled0), heads[..i])
      {
        ok := HandleNext(heads, i, handled0, called0);
        if !ok {
          assert called[|called0|..] + [] == called[|called0|..];
          return;
        }
      }
      assert heads[..|heads|] == heads;
      return true;
    }

    method HandleNext(heads: seq<Head>, i: nat, ghost handled0: seq<Head>, ghost called0: seq<Head>) returns (ok: bool)
      requires Valid() && i < |heads| && handled == handled0 + heads[..i]
      requires called == called0 + Records(Highest(first, handled0), heads[..i])
      modifies this
      ensures Valid() && handled == handled0 + heads[..i + 1]
      ensures called == called0 + Records(Highest(first, handled0), heads[..i + 1])
              || (!ok && called == called0 + Records(Highest(first, handled0), heads[..i]))
    {
      NextRecord(first, handled0, heads, i);
      ok := HandleNewHead(heads[i]);
    }
  }

  /** The head at which it stopped may or may not have reached the callbacks; all before it did. */
  ghost predicate Stopped(heads: seq<Head>, n: int, calls: seq<Head>, seen: Option<Head>) {
    && 0 < n <= |heads|
    && (calls == Records(seen, heads[..n - 1]) || calls == Records(seen, heads[..n]))
  }

  // ---- what overload costs ----

  ghost predicate StrictlyHighest(heads: seq<Head>, k: nat) {
    k < |heads| && forall i :: 0 <= i < |heads| && i != k ==> heads[i].number < heads[k].number
  }

  /** What a tracker was given and did since a subscription, if receiveHeaders met no error. */
  ghost predicate Followed(t: Tracker, r: Ring, handled: seq<Head>, called: seq<Head>)
    reads t
  {
    && t.Valid() && t.handled == handled + Delivered(r.left)
    && t.called == called + Records(Highest(t.first, handled), Delivered(r.left))
  }

  /** The highest head received reaches the callbacks, and is the last to do so, exactly when the ring
      delivered it. */
  lemma HighestReachesCallbacks(t: Tracker, r: Ring, handled: seq<Head>, called: seq<Head>, k: nat)
    requires Reachable(r) && 1 <= r.size && Followed(t, r, handled, called)
    requires StrictlyHighest(r.received, k) && Beats(r.received[k], Highest(t.first, handled))
    ensures r.received[k] in t.called[|called|..] <==> k < |r.left| && r.left[k].delivered
    ensures k < |r.left| && r.left[k].delivered ==> t.called[|t.called| - 1] == r.received[k]
  {
    LeftWasReceived(r);
    var seen, got := Highest(t.first, handled), Delivered(r.left);
    RecordsAreHeads(seen, got);
    LastRecordIsHighest(seen, got);
    HighestIsMaximum(seen, got);
    assert t.called[|called|..] == Records(seen, got);
    forall h | h in got
      ensures exists i :: 0 <= i < |r.left| && r.left[i].delivered && r.received[i] == h
    {
      DeliveredIsLeft(r.left, h);
    }
    if k < |r.left| && r.left[k].delivered {
      LeftIsDelivered(r.left, k);
      assert r.received[k] in got;
    }
  }

  lemma LeftWasReceived(r: Ring)
    requires Reachable(r) && 1 <= r.size
    ensures |r.left| <= |r.received| && forall i :: 0 <= i < |r.left| ==> r.left[i].head == r.received[i]
  {
    NothingIsLost(r);
    assert r.received == Heads(r.left) + (r.channel + InHand(r.producer));
    assert forall i :: 0 <= i < |r.left| ==> Heads(r.left)[i] == r.left[i].head;
  }

  lemma {:induction false} DeliveredIsLeft(left: seq<Left>, h: Head)
    requires h in Delivered(left)
    ensures exists i :: 0 <= i < |left| && left[i].delivered && left[i].head == h
  {
    var before := left[..|left| - 1];
    if h in Delivered(before) {
      DeliveredIsLeft(before, h);
      var i :| 0 <= i < |before| && before[i].delivered && before[i].head == h;
      assert left[i] == before[i];
    } else {
      assert left[|left| - 1].delivered && left[|left| - 1].head == h;
    }
  }

  lemma {:induction false} LeftIsDelivered(left: seq<Left>, k: nat)
    requires k < |left| && left[k].delivered
    ensures left[k].head in Delivered(left)
  {
    if k < |left| - 1 {
      assert left[..|left| - 1][k] == left[k];
      LeftIsDelivered(left[..|left| - 1], k);
    }
  }

  /** Overload costs old heads, not the latest: once the ring is empty, the newest head it received,
      if it is the highest, was the last one to go to the callbacks. */
  lemma NewestReachesCallbacks(t: Tracker, r: Ring, handled: seq<Head>, called: seq<Head>)
    requires Reachable(r) && 1 <= r.size && Followed(t, r, handled, called)
    requires r.producer.Receiving? && r.channel == [] && r.received != []
    requires StrictlyHighest(r.received, |r.received| - 1) && Beats(r.received[|r.received| - 1], Highest(t.first, handled))
    ensures |t.called| > |called| && t.called[|t.called| - 1] == r.received[|r.received| - 1]
  {
    NewestWasDelivered(r);
    HighestReachesCallbacks(t, r, handled, called, |r.received| - 1);
  }

  lemma NewestWasDelivered(r: Ring)
    requires Reachable(r) && 1 <= r.size && r.producer.Receiving? && r.channel == [] && r.received != []
    ensures r.left != [] && r.left[|r.left| - 1].delivered && r.received == Heads(r.left)
    ensures forall i :: 0 <= i < |r.left| ==> r.left[i].head == r.received[i]
  {
    var actions :| Run(r.size, actions) == Some(r);
    RunKeepsInv(r.size, actions);
    assert r.received == Heads(r.left);
  }

  /** The highest head can be lost: the ring is full with it in front when a lower one comes. */
  lemma HighestCanBeDropped()
    ensures exists r :: && Reachable(r) && r.size == 1 && r.producer.Receiving? && r.channel == [] && StrictlyHighest(r.received, 0)
                        && r.received[0] !in Delivered(r.left)
  {
    var high, low := Head(10, 0), Head(9, 1);
    Next(Fresh(1), Receive(Some(high)), Ring(1, [], Sending(high), [high], []));
    Next(Ring(1, [], Sending(high), [high], []), Produce, Ring(1, [high], Receiving, [high], []));
    Next(Ring(1, [high], Receiving, [high], []), Receive(Some(low)), Ring(1, [high], Sending(low), [high, low], []));
    Next(Ring(1, [high], Sending(low), [high, low], []), Produce, Ring(1, [high], Dropping(low), [high, low], []));
    LowIsDelivered(high, low);
  }

  lemma LowIsDelivered(high: Head, low: Head)
    requires Reachable(Ring(1, [high], Dropping(low), [high, low], [])) && low.number < high.number
    ensures exists r :: && Reachable(r) && r.size == 1 && r.producer.Receiving? && r.channel == [] && StrictlyHighest(r.received, 0)
                        && r.received[0] !in Delivered(r.left)
  {
    var left := [Left(high, false)];
    Next(Ring(1, [high], Dropping(low), [high, low], []), Produce, Ring(1, [], Resending(low), [high, low], left));
    Next(Ring(1, [], Resending(low), [high, low], left), Produce, Ring(1, [low], Receiving, [high, low], left));
    var r := Ring(1, [], Receiving, [high, low], left + [Left(low, true)]);
    Next(Ring(1, [low], Receiving, [high, low], left), Consume, r);
    assert r.left[..1] == left;
    assert Delivered(left) == [] && Delivered(r.left) == [low];
  }

  lemma Next(r: Ring, a: Action, r': Ring)
    requires (r == Fresh(r.size) || Reachable(r)) && Enabled(r, a) && Step(r, a) == r' && r'.size == r.size
    ensures Reachable(r')
  {
    var actions := [];
    if r != Fresh(r.size) {
      actions :| Run(r.size, actions) == Some(r);
    }
    Append(r.size, actions, a);
  }
}
