/** BoundedQueue and BoundedPriorityQueue of core/utils/utils.go. */
module BoundedQueues {
  import opened Options
  import opened Ordering
  import opened Sequences

  class BoundedQueue<T> {
    const capacity: nat
    var items: seq<T>

    constructor (capacity: nat)
      ensures this.capacity == capacity && items == []
    {
      this.capacity, items := capacity, [];
    }

    method Add(x: T)
      modifies this
      ensures items == LastOf(old(items) + [x], capacity)
    {
      items := items + [x];
      if |items| > capacity {
        var excess := |items| - capacity;
        items := items[excess..];
      }
    }

    method Take() returns (x: Option<T>)
      modifies this
      ensures if old(items) == [] then x == None && items == [] else x == Some(old(items)[0]) && items == old(items)[1..]
    {
      if |items| == 0 {
        return None;
      }
      x := Some(items[0]);
      items := items[1..];
    }

    predicate Empty()
      reads this
    {
      |items| == 0
    }
  }

  // ---- the abstract priority queue ----

  /** The items held for each priority, oldest first. */
  type Held<T> = map<nat, seq<T>>

  function Added<T>(held: Held<T>, capacities: map<nat, nat>, priority: nat, x: T): Held<T>
    requires priority in held && priority in capacities
  {
    held[priority := LastOf(held[priority] + [x], capacities[priority])]
  }

  function Waiting<T>(held: Held<T>): set<nat> {
    set p | p in held && |held[p]| > 0
  }

  function Identity(p: nat): int {
    p
  }

  function Lowest(s: set<nat>): (p: nat)
    requires s != {}
    ensures p in s && forall q :: q in s ==> p <= q
  {
    Least(s, Identity)
  }

  /** The priorities in ascending order, as NewBoundedPriorityQueue sorts them. */
  function Ascending(s: set<nat>): (r: seq<nat>)
    ensures forall p :: p in r <==> p in s
    ensures forall i, j :: 0 <= i < j < |r| ==> r[i] < r[j]
  {
    var r := SortBy(s, Identity);
    assert forall i, j :: 0 <= i < j < |r| ==> Before(Identity, r[i], r[j]);
    r
  }

  /** What Take removes: the oldest item of the smallest priority that has any. */
  function Next<T>(held: Held<T>): Option<nat> {
    if Waiting(held) == {} then None else Some(Lowest(Waiting(held)))
  }

  function Taken<T>(held: Held<T>): Held<T> {
    match Next(held)
    case None => held
    case Some(p) => assert p in Waiting(held); held[p := held[p][1..]]
  }

  class BoundedPriorityQueue<T> {
    var queues: map<nat, BoundedQueue<T>>
    var priorities: seq<nat>
    const capacities: map<nat, nat>

    ghost predicate Valid()
      reads this, queues.Values
    {
      && queues.Keys == capacities.Keys
      && (forall p :: p in queues ==> queues[p].capacity == capacities[p])
      && (forall p, q :: p in queues && q in queues && p != q ==> queues[p] != queues[q])
      && (forall p :: p in priorities <==> p in queues)
      && (forall i, j :: 0 <= i < j < |priorities| ==> priorities[i] < priorities[j])
    }

    ghost function View(): Held<T>
      reads this, queues.Values
    {
      map p | p in queues :: queues[p].items
    }

    constructor (capacities: map<nat, nat>)
      ensures Valid() && this.capacities == capacities && forall p :: p in queues ==> fresh(queues[p])
      ensures forall p :: p in View() ==> View()[p] == []
    {
      this.capacities := capacities;
      priorities := Ascending(capacities.Keys);
      new;
      queues := NewQueues(capacities);
      NothingHeld();
    }

    lemma NothingHeld()
      requires forall p :: p in queues ==> queues[p].items == []
      ensures forall p :: p in View() ==> View()[p] == []
    {
    }

    static method NewQueues(capacities: map<nat, nat>) returns (queues: map<nat, BoundedQueue<T>>)
      ensures queues.Keys == capacities.Keys
      ensures forall p :: p in queues ==> fresh(queues[p]) && queues[p].capacity == capacities[p] && queues[p].items == []
      ensures forall p, q :: p in queues && q in queues && p != q ==> queues[p] != queues[q]
    {
      queues := map[];
      var rest := capacities.Keys;
      while rest != {}
        invariant rest <= capacities.Keys && queues.Keys == capacities.Keys - rest
        invariant forall p :: p in queues ==> fresh(queues[p]) && queues[p].capacity == capacities[p] && queues[p].items == []
        invariant forall p, q :: p in queues && q in queues && p != q ==> queues[p] != queues[q]
        decreases |rest|
      {
        var p :| p in rest;
        rest := rest - {p};
        var queue := new BoundedQueue<T>(capacities[p]);
        queues := queues[p := queue];
      }
    }

    /** Add, with the panic for a priority that does not exist as a result. */
    method Add(priority: nat, x: T) returns (known: bool)
      requires Valid()
      modifies queues.Values
      ensures Valid() && queues == old(queues) && known == (priority in capacities)
      ensures View() == if known then Added(old(View()), capacities, priority, x) else old(View())
    {
      if priority !in queues {
        return false;
      }
      var subqueue := queues[priority];
      subqueue.Add(x);
      return true;
    }

    method Take() returns (x: Option<T>)
      requires Valid()
      modifies queues.Values
      ensures Valid() && queues == old(queues)
      ensures View() == Taken(old(View()))
      ensures x == match Next(old(View())) case None => None case Some(p) => Some(old(View())[p][0])
    {
      for i := 0 to |priorities|
        invariant Valid() && View() == old(View()) && queues == old(queues)
        invariant forall j :: 0 <= j < i ==> queues[priorities[j]].items == []
      {
        var queue := queues[priorities[i]];
        if queue.Empty() {
          continue;
        }
        FirstWaiting(i);
        x := TakeFrom(priorities[i]);
        return;
      }
      NobodyWaiting();
      return None;
    }

    method TakeFrom(priority: nat) returns (x: Option<T>)
      requires Valid() && priority in queues && Next(View()) == Some(priority)
      modifies queues.Values
      ensures Valid() && queues == old(queues)
      ensures View() == Taken(old(View())) && x == Some(old(View())[priority][0])
    {
      assert priority in Waiting(View());
      var queue := queues[priority];
      x := queue.Take();
    }

    lemma FirstWaiting(i: nat)
      requires Valid() && i < |priorities| && queues[priorities[i]].items != []
      requires forall j :: 0 <= j < i ==> queues[priorities[j]].items == []
      ensures Next(View()) == Some(priorities[i])
    {
      assert priorities[i] in Waiting(View());
      forall q | q in Waiting(View())
        ensures priorities[i] <= q
      {
        var j :| 0 <= j < |priorities| && priorities[j] == q;
      }
    }

    lemma NobodyWaiting()
      requires Valid() && forall j :: 0 <= j < |priorities| ==> queues[priorities[j]].items == []
      ensures Next(View()) == None
    {
      forall q
        ensures q !in Waiting(View())
      {
        if q in queues {
          var j :| 0 <= j < |priorities| && priorities[j] == q;
        }
      }
    }

    method Empty() returns (empty: bool)
      requires Valid()
      ensures empty <==> Next(View()) == None
    {
      for i := 0 to |priorities|
        invariant forall j :: 0 <= j < i ==> queues[priorities[j]].items == []
      {
        if !queues[priorities[i]].Empty() {
          FirstWaiting(i);
          return false;
        }
      }
      NobodyWaiting();
      return true;
    }
  }

  // ---- any sequence of Add and Take ----

  datatype Op<T> = Put(priority: nat, x: T) | Get

  /** An item that left the queue: taken, or discarded to keep to the capacity. */
  datatype Gone<T> = Gone(priority: nat, x: T, taken: bool)

  datatype Record<T> = Record(held: Held<T>, gone: seq<Gone<T>>)

  function Played<T>(capacities: map<nat, nat>, r: Record<T>, op: Op<T>): Record<T>
    requires r.held.Keys == capacities.Keys
    ensures Played(capacities, r, op).held.Keys == capacities.Keys
  {
    match op
    case Put(p, x) =>
      if p !in capacities then r else
        Record(Added(r.held, capacities, p, x),
               if |r.held[p]| + 1 > capacities[p] then r.gone + [Gone(p, (r.held[p] + [x])[0], false)] else r.gone)
    case Get =>
      match Next(r.held)
      case None => r
      case Some(p) => assert p in Waiting(r.held); Record(Taken(r.held), r.gone + [Gone(p, r.held[p][0], true)])
  }

  function Play<T>(capacities: map<nat, nat>, ops: seq<Op<T>>): (r: Record<T>)
    ensures r.held.Keys == capacities.Keys
    decreases |ops|
  {
    if ops == [] then Record(map p | p in capacities :: [], [])
    else Played(capacities, Play(capacities, ops[..|ops| - 1]), ops[|ops| - 1])
  }

  /** What was added with priority p, in order. */
  function Arrived<T>(ops: seq<Op<T>>, p: nat): seq<T>
    decreases |ops|
  {
    if ops == [] then [] else
      var last := ops[|ops| - 1];
      Arrived(ops[..|ops| - 1], p) + if last.Put? && last.priority == p then [last.x] else []
  }

  function GoneFrom<T>(gone: seq<Gone<T>>, p: nat): seq<T>
    decreases |gone|
  {
    if gone == [] then [] else
      var last := gone[|gone| - 1];
      GoneFrom(gone[..|gone| - 1], p) + if last.priority == p then [last.x] else []
  }

  lemma GoneAppend<T>(gone: seq<Gone<T>>, last: Gone<T>, p: nat)
    ensures GoneFrom(gone + [last], p) == GoneFrom(gone, p) + if last.priority == p then [last.x] else []
  {
    assert (gone + [last])[..|gone + [last]| - 1] == gone;
  }

  /** The items of one priority: what left so far, followed by what is held. */
  ghost predicate Conserved<T>(r: Record<T>, p: nat, capacity: nat, arrived: seq<T>) {
    p in r.held && |r.held[p]| <= capacity && arrived == GoneFrom(r.gone, p) + r.held[p]
  }

  lemma PutConserves<T>(capacities: map<nat, nat>, r: Record<T>, p: nat, x: T, arrived: seq<T>)
    requires r.held.Keys == capacities.Keys && p in capacities && Conserved(r, p, capacities[p], arrived)
    ensures Conserved(Played(capacities, r, Put(p, x)), p, capacities[p], arrived + [x])
  {
    var longer := r.held[p] + [x];
    assert arrived + [x] == GoneFrom(r.gone, p) + longer;
    if |longer| > capacities[p] {
      assert LastOf(longer, capacities[p]) == longer[1..];
      GoneAppend(r.gone, Gone(p, longer[0], false), p);
      FirstMoves(GoneFrom(r.gone, p), longer);
    }
  }

  lemma FirstMoves<T>(left: seq<T>, right: seq<T>)
    requires right != []
    ensures left + right == (left + [right[0]]) + right[1..]
  {
  }

  lemma GetConserves<T>(capacities: map<nat, nat>, r: Record<T>, p: nat, arrived: seq<T>)
    requires r.held.Keys == capacities.Keys && p in capacities && Conserved(r, p, capacities[p], arrived)
    ensures Conserved(Played(capacities, r, Get), p, capacities[p], arrived)
  {
    if q :| Next(r.held) == Some(q) {
      assert q in Waiting(r.held);
      GoneAppend(r.gone, Gone(q, r.held[q][0], true), p);
      if q == p {
        FirstMoves(GoneFrom(r.gone, p), r.held[p]);
      }
    }
  }

  lemma OthersConserve<T>(capacities: map<nat, nat>, r: Record<T>, q: nat, x: T, p: nat, arrived: seq<T>)
    requires r.held.Keys == capacities.Keys && p in capacities && Conserved(r, p, capacities[p], arrived) && q != p
    ensures Conserved(Played(capacities, r, Put(q, x)), p, capacities[p], arrived)
  {
    if q in capacities {
      GoneAppend(r.gone, Gone(q, (r.held[q] + [x])[0], false), p);
    }
  }

  /** For each priority, what was added is what left, oldest first, followed by what is held, of
      which there is never more than the capacity: nothing is lost, repeated or reordered. */
  lemma {:induction false} AddedIsGoneOrHeld<T>(capacities: map<nat, nat>, ops: seq<Op<T>>, p: nat)
    requires p in capacities
    ensures var r := Play(capacities, ops);
            |r.held[p]| <= capacities[p] && Arrived(ops, p) == GoneFrom(r.gone, p) + r.held[p]
    decreases |ops|
  {
    if ops != [] {
      var before := ops[..|ops| - 1];
      AddedIsGoneOrHeld(capacities, before, p);
      var r := Play(capacities, before);
      match ops[|ops| - 1]
      case Put(q, x) =>
        if q == p {
          PutConserves(capacities, r, p, x, Arrived(before, p));
        } else {
          OthersConserve(capacities, r, q, x, p, Arrived(before, p));
        }
      case Get => GetConserves(capacities, r, p, Arrived(before, p));
    }
  }

  /** Take gives the oldest item of the smallest priority that has any, and nothing only if none has. */
  lemma TakesTheFirst<T>(capacities: map<nat, nat>, ops: seq<Op<T>>)
    ensures var held, gone, gone' := Play(capacities, ops).held, Play(capacities, ops).gone, Play(capacities, ops + [Get]).gone;
            if forall p :: p in capacities ==> held[p] == [] then gone' == gone
            else gone' != [] && gone'[..|gone'| - 1] == gone
                 && var g := gone'[|gone'| - 1];
                    g.taken && g.priority in held && held[g.priority] != [] && g.x == held[g.priority][0]
                    && forall q :: q in held && q < g.priority ==> held[q] == []
  {
    var held := Play(capacities, ops).held;
    assert (ops + [Get])[..|ops + [Get]| - 1] == ops;
    if p :| p in capacities && held[p] != [] {
      assert p in Waiting(held);
      forall q | q in held && q < Lowest(Waiting(held))
        ensures held[q] == []
      {
        assert q !in Waiting(held);
      }
    } else {
      assert Waiting(held) == {};
    }
  }
}
