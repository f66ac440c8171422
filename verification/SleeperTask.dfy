/** core/utils/sleeper_task.go: WakeUp and workerLoop over a channel with one slot. */
module SleeperTask {
  import opened Options
  import opened Sequences

  datatype Waker = Entered | Passed | Returned | Panicked

  datatype Loop = Selecting | Working | Exited

  /** Woke is the select of a WakeUp, whichever of its branches is taken. */
  datatype Event = Woke | Started | Ended

  datatype Task = Task(slot: bool, stopped: bool, closed: bool, loop: Loop, wakers: seq<Waker>, log: seq<Event>)

  datatype Action =
    | Call             // a new call of WakeUp
    | Advance(i: nat)  // the next step of the i-th such call
    | Take             // workerLoop receives from chQueue and calls Work
    | Finish           // Work returns
    | Stop             // OkayToStop
    | Close            // Stop goes on to close chStop
    | Exit             // workerLoop receives from chStop

  const INITIAL := Task(false, false, false, Selecting, [], [])

  predicate Enabled(t: Task, a: Action) {
    match a
    case Call => true
    case Advance(i) => i < |t.wakers| && (t.wakers[i].Entered? || t.wakers[i].Passed?)
    case Take => t.loop.Selecting? && t.slot
    case Finish => t.loop.Working?
    case Stop => !t.stopped
    case Close => t.stopped && !t.closed
    case Exit => t.loop.Selecting? && t.closed
  }

  function Step(t: Task, a: Action): Task
    requires Enabled(t, a)
  {
    match a
    case Call => t.(wakers := t.wakers + [Entered])
    case Advance(i) =>
      if t.wakers[i].Entered? then t.(wakers := t.wakers[i := if t.stopped then Panicked else Passed])
      else t.(slot := true, wakers := t.wakers[i := Returned], log := t.log + [Woke])
    case Take => t.(slot := false, loop := Working, log := t.log + [Started])
    case Finish => t.(loop := Selecting, log := t.log + [Ended])
    case Stop => t.(stopped := true)
    case Close => t.(closed := true)
    case Exit => t.(loop := Exited)
  }

  ghost function Run(actions: seq<Action>): Option<Task>
    decreases |actions|
  {
    if actions == [] then Some(INITIAL) else
      var before := Run(actions[..|actions| - 1]);
      var last := actions[|actions| - 1];
      if before.Some? && Enabled(before.value, last) then Some(Step(before.value, last)) else None
  }

  ghost predicate Reachable(t: Task) {
    exists actions :: Run(actions) == Some(t)
  }

  /** A Work started after the k-th event. */
  ghost predicate Served(log: seq<Event>, k: nat) {
    exists j :: k < j < |log| && log[j] == Started
  }

  ghost predicate Inv(t: Task) {
    && Times(t.log, Started) + (if t.slot then 1 else 0) <= Times(t.log, Woke)
    && Times(t.log, Started) == Times(t.log, Ended) + (if t.loop.Working? then 1 else 0)
    && (forall k :: 0 <= k < |t.log| && t.log[k] == Woke && !Served(t.log, k) ==> t.slot)
    && (t.loop.Exited? ==> t.closed) && (t.closed ==> t.stopped)
  }

  lemma Appending(log: seq<Event>, e: Event)
    ensures forall f :: Times(log + [e], f) == Times(log, f) + if e == f then 1 else 0
    ensures forall k :: 0 <= k < |log| && Served(log, k) ==> Served(log + [e], k)
  {
    forall f
      ensures Times(log + [e], f) == Times(log, f) + if e == f then 1 else 0
    {
      TimesAppend(log, e, f);
    }
    forall k | 0 <= k < |log| && Served(log, k)
      ensures Served(log + [e], k)
    {
      var j :| k < j < |log| && log[j] == Started;
      assert (log + [e])[j] == Started;
    }
  }

  lemma WakingKeepsInv(t: Task, i: nat)
    requires Inv(t) && Enabled(t, Advance(i)) && t.wakers[i].Passed?
    ensures Inv(Step(t, Advance(i)))
  {
    Appending(t.log, Woke);
  }

  lemma StartingServesAll(log: seq<Event>, k: nat)
    requires k < |log|
    ensures Served(log + [Started], k)
  {
    assert (log + [Started])[|log|] == Started;
  }

  lemma StartingKeepsInv(t: Task)
    requires Inv(t) && Enabled(t, Take)
    ensures Inv(Step(t, Take))
  {
    Appending(t.log, Started);
    forall k: nat | k < |t.log|
      ensures Served(t.log + [Started], k)
    {
      StartingServesAll(t.log, k);
    }
  }

  lemma StepKeepsInv(t: Task, a: Action)
    requires Inv(t) && Enabled(t, a)
    ensures Inv(Step(t, a))
  {
    if a.Advance? && t.wakers[a.i].Passed? {
      WakingKeepsInv(t, a.i);
    } else if a.Take? {
      StartingKeepsInv(t);
    } else if a.Finish? {
      Appending(t.log, Ended);
    }
  }

  lemma {:induction false} RunKeepsInv(actions: seq<Action>)
    requires Run(actions).Some?
    ensures Inv(Run(actions).value)
    decreases |actions|
  {
    if actions != [] {
      RunKeepsInv(actions[..|actions| - 1]);
      StepKeepsInv(Run(actions[..|actions| - 1]).value, actions[|actions| - 1]);
    }
  }

  // ---- what SleeperTask promises ----

  /** Works never overlap, and there are never more of them than WakeUps. */
  lemma WorksAreBounded(t: Task)
    requires Reachable(t)
    ensures Times(t.log, Started) <= Times(t.log, Woke)
    ensures Times(t.log, Started) == Times(t.log, Ended) + if t.loop.Working? then 1 else 0
  {
    var actions :| Run(actions) == Some(t);
    RunKeepsInv(actions);
  }

  /** A WakeUp is never lost: as long as no Work has started after it the slot is full, and until
      Stop closes its channel, its loop is busy with another Work or all it can do is start the next. */
  lemma WakeUpIsNotLost(t: Task, k: nat)
    requires Reachable(t) && k < |t.log| && t.log[k] == Woke
    ensures Served(t.log, k) || (t.slot && (!t.closed ==> Enabled(t, Finish) || (Enabled(t, Take) && !Enabled(t, Exit))))
  {
    var actions :| Run(actions) == Some(t);
    RunKeepsInv(actions);
  }

  /** So when the loop comes to rest without having been told to exit, every WakeUp was followed by a Work. */
  lemma AtRestAllServed(t: Task, k: nat)
    requires Reachable(t) && !t.closed && !Enabled(t, Take) && !Enabled(t, Finish)
    requires k < |t.log| && t.log[k] == Woke
    ensures Served(t.log, k)
  {
    WakeUpIsNotLost(t, k);
  }

  /** No call of WakeUp ever blocks: it returns, or panics if Stop came before it. */
  lemma WakeUpNeverBlocks(t: Task, i: nat)
    requires i < |t.wakers| && !t.wakers[i].Returned? && !t.wakers[i].Panicked?
    ensures Enabled(t, Advance(i))
    ensures Step(t, Advance(i)).wakers[i] != t.wakers[i]
    ensures Step(t, Advance(i)).wakers[i].Panicked? <==> t.stopped && t.wakers[i].Entered?
  {
  }

  /** Once stopped it may exit with a WakeUp unserved. */
  lemma StoppingLosesWakeUps()
    ensures exists t, k: nat :: Reachable(t) && t.loop.Exited? && k < |t.log| && t.log[k] == Woke && !Served(t.log, k)
  {
    var woken := Extend(Extend(Extend([], Call), Advance(0)), Advance(0));
    assert Run(woken) == Some(Task(true, false, false, Selecting, [Returned], [Woke])) by {
      assert [] + [Entered] == [Entered] && [Entered][0 := Passed] == [Passed] && [Passed][0 := Returned] == [Returned];
      assert [] + [Woke] == [Woke];
      assert Run(Extend([], Call)) == Some(Task(false, false, false, Selecting, [Entered], []));
      assert Run(Extend(Extend([], Call), Advance(0))) == Some(Task(false, false, false, Selecting, [Passed], []));
    }
    var t := Task(true, true, true, Exited, [Returned], [Woke]);
    assert Run(Extend(woken, Stop)) == Some(t.(loop := Selecting, closed := false));
    assert Run(Extend(Extend(woken, Stop), Close)) == Some(t.(loop := Selecting));
    assert Run(Extend(Extend(Extend(woken, Stop), Close), Exit)) == Some(t);
    assert t.log[0] == Woke && !Served(t.log, 0);
  }

  ghost function Extend(actions: seq<Action>, a: Action): (longer: seq<Action>)
    ensures Run(actions).Some? && Enabled(Run(actions).value, a) ==> Run(longer) == Some(Step(Run(actions).value, a))
  {
    assert (actions + [a])[..|actions + [a]| - 1] == actions;
    actions + [a]
  }
}
