/** core/services/run_queue.go: one worker per run id, however many callers there are. */
module RunQueue {
  import opened Options
  import opened Sequences

  type Id = nat

  function Pending(workers: map<Id, int>, id: Id): int {
    if id in workers then workers[id] else 0
  }

  /** The two critical sections, as functions of the counters. */
  function Incremented(workers: map<Id, int>, id: Id): map<Id, int> {
    workers[id := Pending(workers, id) + 1]
  }

  function Decremented(workers: map<Id, int>, id: Id): map<Id, int> {
    if Pending(workers, id) - 1 <= 0 then workers - {id} else workers[id := Pending(workers, id) - 1]
  }

  /** Only ids with something pending have an entry, so WorkerCount counts those. */
  ghost predicate AllPositive(workers: map<Id, int>) {
    forall id :: id in workers ==> 1 <= workers[id]
  }

  ghost predicate SameElsewhere(before: map<Id, int>, after: map<Id, int>, id: Id) {
    forall other :: other != id ==> Pending(after, other) == Pending(before, other)
  }

  ghost predicate CountsOneMore(before: map<Id, int>, after: map<Id, int>, id: Id) {
    AllPositive(after) && Pending(after, id) == Pending(before, id) + 1 && SameElsewhere(before, after, id)
  }

  ghost predicate CountsOneLess(before: map<Id, int>, after: map<Id, int>, id: Id) {
    && AllPositive(after) && SameElsewhere(before, after, id)
    && Pending(after, id) == if id in before then Pending(before, id) - 1 else 0
  }

  /** Among tables without needless entries, what is pending says it all. */
  lemma PendingDetermines(workers: map<Id, int>, other: map<Id, int>)
    requires AllPositive(workers) && AllPositive(other) && forall id :: Pending(workers, id) == Pending(other, id)
    ensures workers == other
  {
    assert forall id :: id in workers <==> Pending(workers, id) > 0;
    assert forall id :: id in other <==> Pending(other, id) > 0;
    assert forall id :: id in workers ==> workers[id] == Pending(other, id);
  }

  /** The two updates are the only ones that count one more and one less. */
  lemma CountingIsUpdating(before: map<Id, int>, after: map<Id, int>, id: Id)
    requires AllPositive(before)
    ensures CountsOneMore(before, after, id) <==> after == Incremented(before, id)
    ensures CountsOneLess(before, after, id) <==> after == Decremented(before, id)
  {
    var more, less := Incremented(before, id), Decremented(before, id);
    assert CountsOneMore(before, more, id) && CountsOneLess(before, less, id);
    if CountsOneMore(before, after, id) {
      assert forall other :: Pending(after, other) == Pending(more, other);
      PendingDetermines(after, more);
    }
    if CountsOneLess(before, after, id) {
      assert forall other :: Pending(after, other) == Pending(less, other);
      PendingDetermines(after, less);
    }
  }

  /** What a Run adds to the counters, the end of an Execute takes away again. */
  lemma IncrementThenDecrement(workers: map<Id, int>, id: Id)
    requires AllPositive(workers)
    ensures Decremented(Incremented(workers, id), id) == workers
  {
    CountingIsUpdating(workers, Incremented(workers, id), id);
    CountingIsUpdating(Incremented(workers, id), Decremented(Incremented(workers, id), id), id);
    PendingDetermines(workers, Decremented(Incremented(workers, id), id));
  }

  /** The part of runQueue that workersMutex protects, but for the stop flag. */
  class Counters {
    var workers: map<Id, int>

    ghost predicate Valid()
      reads this
    {
      AllPositive(workers)
    }

    constructor ()
      ensures Valid() && workers == map[]
    {
      workers := map[];
    }

    /** One more is pending for id and nothing else changes; whether the caller has to start a worker. */
    method IncrementQueue(id: Id) returns (wasEmpty: bool)
      requires Valid()
      modifies this`workers
      ensures Valid() && CountsOneMore(old(workers), workers, id)
      ensures wasEmpty <==> id !in old(workers)
    {
      wasEmpty := Pending(workers, id) == 0;
      workers := workers[id := Pending(workers, id) + 1];
    }

    /** One less is pending for id and nothing else changes; whether the worker is to end. */
    method DecrementQueue(id: Id) returns (isEmpty: bool)
      requires Valid()
      modifies this`workers
      ensures Valid() && CountsOneLess(old(workers), workers, id)
      ensures isEmpty <==> id !in workers
    {
      workers := workers[id := Pending(workers, id) - 1];
      isEmpty := workers[id] <= 0;
      if isEmpty {
        workers := workers - {id};
      }
    }

    method WorkerCount() returns (n: nat)
      requires Valid()
      ensures n == |set id | id in workers && Pending(workers, id) > 0|
    {
      assert workers.Keys == set id | id in workers && Pending(workers, id) > 0;
      n := |workers|;
    }
  }

  // ---- all interleavings ----

  /** Where a goroutine is: a caller of Run, which turns into the worker it starts. */
  datatype Task =
    | Calling(id: Id)    // before the stop check
    | Admitted(id: Id)   // past the stop check, before incrementQueue
    | Spawning(id: Id)   // incrementQueue found the queue empty
    | Ready(id: Id)      // a worker about to call Execute
    | Executing(id: Id)
    | Executed(id: Id)   // before decrementQueue
    | Gone

  datatype Event = Accepted(id: Id) | Started(id: Id) | Ended(id: Id)

  datatype System = System(workers: map<Id, int>, stopRequested: bool, tasks: seq<Task>, log: seq<Event>)

  datatype Action = Call(id: Id) | RequestStop | Advance(task: nat)

  predicate Enabled(s: System, a: Action) {
    a.Advance? ==> a.task < |s.tasks| && s.tasks[a.task] != Gone
  }

  /** One critical section or one other step of one goroutine. */
  function Step(s: System, a: Action): System
    requires Enabled(s, a)
  {
    match a
    case Call(id) => s.(tasks := s.tasks + [Calling(id)])
    case RequestStop => s.(stopRequested := true)
    case Advance(i) =>
      match s.tasks[i]
      case Calling(id) => s.(tasks := s.tasks[i := if s.stopRequested then Gone else Admitted(id)])
      case Admitted(id) =>
        s.(workers := Incremented(s.workers, id), log := s.log + [Accepted(id)],
           tasks := s.tasks[i := if Pending(s.workers, id) == 0 then Spawning(id) else Gone])
      case Spawning(id) => s.(tasks := s.tasks[i := Ready(id)])
      case Ready(id) => s.(tasks := s.tasks[i := Executing(id)], log := s.log + [Started(id)])
      case Executing(id) => s.(tasks := s.tasks[i := Executed(id)], log := s.log + [Ended(id)])
      case Executed(id) =>
        s.(workers := Decremented(s.workers, id), tasks := s.tasks[i := if id in Decremented(s.workers, id) then Ready(id) else Gone])
  }

  const INITIAL := System(map[], false, [], [])

  ghost function Run(actions: seq<Action>): Option<System>
    decreases |actions|
  {
    if actions == [] then Some(INITIAL) else
      var before := Run(actions[..|actions| - 1]);
      var last := actions[|actions| - 1];
      if before.Some? && Enabled(before.value, last) then Some(Step(before.value, last)) else None
  }

  ghost predicate Reachable(s: System) {
    exists actions :: Run(actions) == Some(s)
  }

  /** A worker for id, or a caller that is about to start one. */
  predicate Responsible(task: Task, id: Id) {
    task == Spawning(id) || task == Ready(id) || task == Executing(id) || task == Executed(id)
  }

  /** The counter of id is the number of accepted Runs not executed yet, and somebody sees to it. */
  ghost predicate Consistent(workers: map<Id, int>, tasks: seq<Task>, id: Id, accepted: nat, started: nat, ended: nat) {
    && (forall i, j :: 0 <= i < |tasks| && 0 <= j < |tasks| && Responsible(tasks[i], id) && Responsible(tasks[j], id) ==> i == j)
    && (id in workers <==> exists i :: 0 <= i < |tasks| && Responsible(tasks[i], id))
    && (id !in workers ==> accepted == ended == started)
    && (forall i :: 0 <= i < |tasks| && Responsible(tasks[i], id) ==>
          && id in workers && 1 <= workers[id] == accepted - ended + (if tasks[i].Executed? then 1 else 0)
          && started == ended + if tasks[i].Executing? then 1 else 0)
  }

  ghost predicate IdOk(s: System, id: Id) {
    Consistent(s.workers, s.tasks, id, Times(s.log, Accepted(id)), Times(s.log, Started(id)), Times(s.log, Ended(id)))
  }

  ghost predicate Inv(s: System) {
    forall id :: IdOk(s, id)
  }

  lemma AdmittingIsConsistent(workers: map<Id, int>, tasks: seq<Task>, i: nat, id: Id, accepted: nat, started: nat, ended: nat)
    requires Consistent(workers, tasks, id, accepted, started, ended) && i < |tasks| && tasks[i] == Admitted(id)
    ensures Consistent(Incremented(workers, id), tasks[i := if Pending(workers, id) == 0 then Spawning(id) else Gone], id,
                       accepted + 1, started, ended)
  {
    var tasks' := tasks[i := if Pending(workers, id) == 0 then Spawning(id) else Gone];
    if id in workers {
      var j :| 0 <= j < |tasks| && Responsible(tasks[j], id);
      assert Responsible(tasks'[j], id);
    } else {
      assert Responsible(tasks'[i], id);
    }
  }

  lemma OthersAreConsistent(workers: map<Id, int>, workers': map<Id, int>, tasks: seq<Task>, i: nat, task: Task, id: Id,
                            accepted: nat, started: nat, ended: nat)
    requires Consistent(workers, tasks, id, accepted, started, ended) && i < |tasks| && !tasks[i].Gone? && tasks[i].id != id
    requires !Responsible(task, id) && workers' - {tasks[i].id} == workers - {tasks[i].id}
    ensures Consistent(workers', tasks[i := task], id, accepted, started, ended)
  {
    var tasks' := tasks[i := task];
    assert id in workers <==> id in workers - {tasks[i].id};
    assert id in workers' <==> id in workers' - {tasks[i].id};
    assert id in workers ==> workers[id] == (workers - {tasks[i].id})[id];
    assert id in workers' ==> workers'[id] == (workers' - {tasks[i].id})[id];
    if j :| 0 <= j < |tasks| && Responsible(tasks[j], id) {
      assert Responsible(tasks'[j], id);
    }
  }

  lemma IncrementedElsewhere(workers: map<Id, int>, other: Id)
    ensures Incremented(workers, other) - {other} == workers - {other}
  {
  }

  lemma AdmittingKeepsId(s: System, i: nat, id: Id)
    requires IdOk(s, id) && i < |s.tasks| && s.tasks[i].Admitted?
    ensures IdOk(Step(s, Advance(i)), id)
  {
    var s', e := Step(s, Advance(i)), Accepted(s.tasks[i].id);
    var accepted, started, ended := Times(s.log, Accepted(id)), Times(s.log, Started(id)), Times(s.log, Ended(id));
    TimesAppend(s.log, e, Accepted(id));
    TimesAppend(s.log, e, Started(id));
    TimesAppend(s.log, e, Ended(id));
    if s.tasks[i].id == id {
      AdmittingIsConsistent(s.workers, s.tasks, i, id, accepted, started, ended);
      assert Consistent(s'.workers, s'.tasks, id, accepted + 1, started, ended);
    } else {
      IncrementedElsewhere(s.workers, s.tasks[i].id);
      OthersAreConsistent(s.workers, s'.workers, s.tasks, i, s'.tasks[i], id, accepted, started, ended);
      assert s.tasks[i := s'.tasks[i]] == s'.tasks;
    }
  }

  lemma DecrementingKeepsId(s: System, i: nat, id: Id)
    requires IdOk(s, id) && i < |s.tasks| && s.tasks[i].Executed?
    ensures IdOk(Step(s, Advance(i)), id)
  {
    var s' := Step(s, Advance(i));
    assert Responsible(s.tasks[i], s.tasks[i].id);
    if s.tasks[i].id != id {
      if j :| 0 <= j < |s.tasks| && Responsible(s.tasks[j], id) {
        assert s'.tasks[j] == s.tasks[j];
      }
    }
    assert id in s'.workers && id == s.tasks[i].id ==> Responsible(s'.tasks[i], id);
  }

  lemma WorkingIsConsistent(workers: map<Id, int>, tasks: seq<Task>, i: nat, task: Task, id: Id, accepted: nat,
                            started: nat, ended: nat, started': nat, ended': nat)
    requires Consistent(workers, tasks, id, accepted, started, ended) && i < |tasks|
    requires Responsible(tasks[i], id) && Responsible(task, id) && id in workers
    requires workers[id] == accepted - ended' + (if task.Executed? then 1 else 0)
    requires started' == ended' + (if task.Executing? then 1 else 0)
    ensures Consistent(workers, tasks[i := task], id, accepted, started', ended')
  {
    assert Responsible(tasks[i := task][i], id);
  }

  lemma SpawningKeepsId(s: System, i: nat, id: Id)
    requires IdOk(s, id) && i < |s.tasks| && s.tasks[i].Spawning?
    ensures IdOk(Step(s, Advance(i)), id)
  {
    var accepted, started, ended := Times(s.log, Accepted(id)), Times(s.log, Started(id)), Times(s.log, Ended(id));
    if s.tasks[i].id == id {
      WorkingIsConsistent(s.workers, s.tasks, i, Ready(id), id, accepted, started, ended, started, ended);
    } else {
      OthersAreConsistent(s.workers, s.workers, s.tasks, i, Ready(s.tasks[i].id), id, accepted, started, ended);
    }
  }

  /** A worker enters or leaves Execute. */
  lemma ExecutingKeepsId(s: System, i: nat, task: Task, e: Event, id: Id)
    requires IdOk(s, id) && i < |s.tasks|
    requires (s.tasks[i].Ready? && task == Executing(s.tasks[i].id) && e == Started(s.tasks[i].id))
             || (s.tasks[i].Executing? && task == Executed(s.tasks[i].id) && e == Ended(s.tasks[i].id))
    ensures Consistent(s.workers, s.tasks[i := task], id, Times(s.log + [e], Accepted(id)), Times(s.log + [e], Started(id)), Times(s.log + [e], Ended(id)))
  {
    var accepted, started, ended := Times(s.log, Accepted(id)), Times(s.log, Started(id)), Times(s.log, Ended(id));
    TimesAppend(s.log, e, Accepted(id));
    TimesAppend(s.log, e, Started(id));
    TimesAppend(s.log, e, Ended(id));
    if s.tasks[i].id == id {
      assert Responsible(s.tasks[i], id);
      if e.Started? {
        WorkingIsConsistent(s.workers, s.tasks, i, task, id, accepted, started, ended, started + 1, ended);
      } else {
        WorkingIsConsistent(s.workers, s.tasks, i, task, id, accepted, started, ended, started, ended + 1);
      }
    } else {
      OthersAreConsistent(s.workers, s.workers, s.tasks, i, task, id, accepted, started, ended);
    }
  }

  /** Callers before incrementQueue do not matter. */
  lemma SameResponsible(workers: map<Id, int>, tasks: seq<Task>, tasks': seq<Task>, id: Id, accepted: nat, started: nat, ended: nat)
    requires Consistent(workers, tasks, id, accepted, started, ended) && |tasks| <= |tasks'|
    requires forall j :: 0 <= j < |tasks'| && Responsible(tasks'[j], id) ==> j < |tasks|
    requires forall j :: 0 <= j < |tasks| && (Responsible(tasks[j], id) || Responsible(tasks'[j], id)) ==> tasks'[j] == tasks[j]
    ensures Consistent(workers, tasks', id, accepted, started, ended)
  {
    if j :| 0 <= j < |tasks| && Responsible(tasks[j], id) {
      assert Responsible(tasks'[j], id);
    }
  }

  lemma CallingKeepsId(s: System, a: Action, id: Id)
    requires IdOk(s, id) && Enabled(s, a) && (a.Advance? ==> s.tasks[a.task].Calling?)
    ensures IdOk(Step(s, a), id)
  {
    SameResponsible(s.workers, s.tasks, Step(s, a).tasks, id, Times(s.log, Accepted(id)), Times(s.log, Started(id)), Times(s.log, Ended(id)));
  }

  lemma StepKeepsId(s: System, a: Action, id: Id)
    requires IdOk(s, id) && Enabled(s, a)
    ensures IdOk(Step(s, a), id)
  {
    if !a.Advance? || s.tasks[a.task].Calling? {
      CallingKeepsId(s, a, id);
    } else {
      match s.tasks[a.task]
      case Admitted(_) => AdmittingKeepsId(s, a.task, id);
      case Spawning(_) => SpawningKeepsId(s, a.task, id);
      case Ready(runId) => ExecutingKeepsId(s, a.task, Executing(runId), Started(runId), id);
      case Executing(runId) => ExecutingKeepsId(s, a.task, Executed(runId), Ended(runId), id);
      case Executed(_) => DecrementingKeepsId(s, a.task, id);
    }
  }

  lemma {:induction false} RunKeepsInv(actions: seq<Action>)
    requires Run(actions).Some?
    ensures Inv(Run(actions).value)
    decreases |actions|
  {
    if actions != [] {
      var before := actions[..|actions| - 1];
      RunKeepsInv(before);
      forall id
        ensures IdOk(Run(actions).value, id)
      {
        StepKeepsId(Run(before).value, actions[|actions| - 1], id);
      }
    }
  }

  // ---- what follows ----

  /** At most one worker per id, and one exactly while the counter is positive. */
  lemma OneWorkerEach(s: System, id: Id)
    requires Reachable(s)
    ensures forall i, j :: 0 <= i < |s.tasks| && 0 <= j < |s.tasks| && Responsible(s.tasks[i], id) && Responsible(s.tasks[j], id) ==> i == j
    ensures Pending(s.workers, id) > 0 <==> exists i :: 0 <= i < |s.tasks| && Responsible(s.tasks[i], id)
    ensures Pending(s.workers, id) == 0 <==> id !in s.workers
  {
    var actions :| Run(actions) == Some(s);
    RunKeepsInv(actions);
    assert IdOk(s, id);
  }

  /** The m-th Execute of id starts after the m-th accepted Run of id, in every interleaving. */
  lemma {:induction false} ExecuteFollowsRun(actions: seq<Action>, id: Id, n: nat)
    requires Run(actions).Some? && n <= |Run(actions).value.log|
    ensures Times(Run(actions).value.log[..n], Started(id)) <= Times(Run(actions).value.log[..n], Accepted(id))
    decreases |actions|
  {
    var s := Run(actions).value;
    RunKeepsInv(actions);
    assert IdOk(s, id);
    if n == |s.log| {
      assert s.log[..n] == s.log;
    } else {
      var before := actions[..|actions| - 1];
      var s0 := Run(before).value;
      assert s.log[..n] == s0.log[..n];
      ExecuteFollowsRun(before, id, n);
    }
  }

  /** Once no worker for id is left, it was executed as often as it was accepted. */
  lemma DrainedIsExecuted(s: System, id: Id)
    requires Reachable(s) && id !in s.workers
    ensures Times(s.log, Started(id)) == Times(s.log, Ended(id)) == Times(s.log, Accepted(id))
  {
    var actions :| Run(actions) == Some(s);
    RunKeepsInv(actions);
    assert IdOk(s, id);
  }

  lemma {:induction false} SomeLater(log: seq<Event>, k: nat, e: Event)
    requires k <= |log| && Times(log[..k], e) < Times(log, e)
    ensures exists j :: k <= j < |log| && log[j] == e
    decreases |log|
  {
    assert log[..|log|] == log;
    if log[|log| - 1] != e {
      var before := log[..|log| - 1];
      assert before[..k] == log[..k];
      SomeLater(before, k, e);
    }
  }

  lemma {:induction false} TimesMonotone(log: seq<Event>, k: nat, e: Event)
    requires k <= |log|
    ensures Times(log[..k], e) <= Times(log, e)
    decreases |log|
  {
    if k == |log| {
      assert log[..k] == log;
    } else {
      var before := log[..|log| - 1];
      assert before[..k] == log[..k];
      TimesMonotone(before, k, e);
    }
  }

  /** No accepted Run is lost: once drained, an Execute started after each. */
  lemma NoRunIsLost(actions: seq<Action>, id: Id, k: nat)
    requires Run(actions).Some? && id !in Run(actions).value.workers
    requires k < |Run(actions).value.log| && Run(actions).value.log[k] == Accepted(id)
    ensures exists j :: k < j < |Run(actions).value.log| && Run(actions).value.log[j] == Started(id)
  {
    var log := Run(actions).value.log;
    ExecuteFollowsRun(actions, id, k);
    DrainedIsExecuted(Run(actions).value, id);
    assert log[..k + 1][..k] == log[..k] && log[..k + 1] == log[..k] + [log[k]];
    TimesMonotone(log, k + 1, Accepted(id));
    SomeLater(log, k, Started(id));
  }
}
