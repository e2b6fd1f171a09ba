/** Exactly which tasks of a new job can be dispatched more than once. */
module JobRepeats {
  import opened Sequences
  import opened Tasks
  import opened JobHandling
  import opened JobProgress
  import JobDispatch
  import JobOutcome

  /** A task as its job is added, unfinished and still to hear of two things, or cancelling and still to hear of one. */
  predicate MayRepeat(t: Task) {
    !t.status.IsDone() && (|t.live| >= 2 || (|t.live| == 1 && t.cancelling))
  }

  // ---------- At most: every dispatch after the arrival uses up a live dependency ----------

  function Potential(s: State, id: Uuid): nat
    requires id in s.tasks
  {
    s.past.dispatched[id] + if s.tasks[id].status.IsDone() then 0 else |s.tasks[id].live|
  }

  /** What processing x does to another task. */
  lemma HearsOf(s: State, x: Uuid, id: Uuid)
    requires Tidy(s) && CanProcess(s, x) && id in s.tasks && id != x
    ensures var s' := ProcessTask(s, x);
      && id in s'.tasks && s'.tasks[id] == Processed(s, x, id) && s'.tasks[id].status == s.tasks[id].status
      && s'.past.dispatched[id] == s.past.dispatched[id] + if Wakes(s, x, id) then 1 else 0
    ensures x !in s.tasks[id].live ==> !Wakes(s, x, id) && Processed(s, x, id) == s.tasks[id]
    ensures !s.tasks[id].status.IsDone() && x in s.tasks[id].live ==>
      && |Processed(s, x, id).live| == |s.tasks[id].live| - 1
      && (Wakes(s, x, id) <==> Settled(s.tasks[x]).status.IsFailed() || |s.tasks[id].live| == 1)
  {
    ProcessTaskStep(s, x);
    var t := s.tasks[id];
    if !t.status.IsDone() && x in t.live {
      assert TaskOk(s, id);
      WithoutMembers(t.dependsOn, s.past.processed);
      JobHandling.NotConcerned(s, x, id);
      RemoveFirstLength(t.live, x);
    }
  }

  lemma StepLowersPotential(s: State, e: Event, id: Uuid)
    requires Inv(s) && Enabled(s, e) && id in s.tasks
    ensures id in Apply(s, e).tasks && Potential(Apply(s, e), id) <= Potential(s, id)
  {
    match e
    case Add(jobId, _, newTasks, _) => assert jobId !in s.jobs ==> id !in newTasks;
    case Work(_, _) =>
    case Process(x) =>
      ProcessTaskStep(s, x);
      if !CanProcess(s, x) {
      } else if x == id {
        JobDispatch.NotDispatchedItself(s, x);
      } else {
        HearsOf(s, x, id);
      }
  }

  lemma {:induction false} RunLowersPotential(s: State, run: seq<Event>, id: Uuid)
    requires Inv(s) && Follows(s, run) && id in s.tasks
    ensures Reached(s, run).past.dispatched[id] <= Potential(s, id)
    decreases |run|
  {
    if run == [] {
    } else {
      StepLowersPotential(s, run[0], id);
      StepKeepsInv(s, run[0]);
      RunLowersPotential(Apply(s, run[0]), run[1..], id);
    }
  }

  // ---------- At least once: nothing is done before it was dispatched ----------

  ghost predicate Asleep(s: State, id: Uuid) {
    id in s.tasks && !s.tasks[id].status.IsDone() && !s.tasks[id].IsReadyToRun()
  }

  /** A step dispatches a sleeping task or leaves it asleep. */
  lemma AsleepUntilDispatched(s: State, e: Event, id: Uuid)
    requires Inv(s) && Enabled(s, e) && id in s.tasks
    ensures Apply(s, e).past.dispatched[id] >= s.past.dispatched[id] && id in Apply(s, e).tasks
    ensures Asleep(s, id) && Apply(s, e).past.dispatched[id] == s.past.dispatched[id] ==> Asleep(Apply(s, e), id)
  {
    assert TaskOk(s, id);
    match e
    case Add(jobId, _, newTasks, _) => assert jobId !in s.jobs ==> id !in newTasks;
    case Work(_, _) =>
    case Process(x) =>
      ProcessTaskStep(s, x);
      if !CanProcess(s, x) {
      } else if x == id {
        JobDispatch.NotDispatchedItself(s, x);
      } else {
        HearsOf(s, x, id);
        if Asleep(s, id) && !Wakes(s, x, id) {
          HearsOfReady(s, x, id);
        }
      }
  }

  lemma HearsOfReady(s: State, x: Uuid, id: Uuid)
    requires Tidy(s) && CanProcess(s, x) && id in s.tasks && id != x && Asleep(s, id) && !Wakes(s, x, id)
    ensures !Processed(s, x, id).IsReadyToRun()
  {
    assert TaskOk(s, id) && TaskOk(s, x);
    WakesUpWhenReady(s.tasks[id], x, Settled(s.tasks[x]).status.IsFailed());
  }

  /** However its dependencies end and whatever else happens, a sleeping task is dispatched before it is done. */
  lemma {:induction false} DispatchedBeforeDone(s: State, run: seq<Event>, id: Uuid)
    requires Inv(s) && Follows(s, run) && id in s.tasks
    ensures id in Reached(s, run).tasks && Reached(s, run).past.dispatched[id] >= s.past.dispatched[id]
    ensures Asleep(s, id) && Reached(s, run).tasks[id].status.IsDone() ==>
              Reached(s, run).past.dispatched[id] > s.past.dispatched[id]
    decreases |run|
  {
    if run == [] {
    } else {
      AsleepUntilDispatched(s, run[0], id);
      StepKeepsInv(s, run[0]);
      DispatchedBeforeDone(Apply(s, run[0]), run[1..], id);
    }
  }

  // ---------- At least: a run that fails one dependency and lets the others end ----------

  /** k is a dependency of id, through any number of tasks. */
  ghost predicate Above(tasks: map<Uuid, Task>, id: Uuid, k: Uuid) {
    exists path {:trigger JobOutcome.IsPath(tasks, path)} ::
      JobOutcome.IsPath(tasks, path) && |path| >= 2 && path[0] == id && path[|path| - 1] == k
  }

  lemma NotAboveItself(tasks: map<Uuid, Task>, id: Uuid)
    requires Acyclic(tasks)
    ensures !Above(tasks, id, id)
  {
    if path :| JobOutcome.IsPath(tasks, path) && |path| >= 2 && path[0] == id && path[|path| - 1] == id {
      var group := set i | 0 <= i < |path| :: path[i];
      assert path[0] in group;
      var x := RootOf(tasks, group);
      var i :| 0 <= i < |path| && path[i] == x;
      var j := if i == |path| - 1 then 0 else i;
      assert path[j] == x && path[j + 1] in tasks[path[j]].dependsOn && path[j + 1] in group;
    }
  }

  lemma AboveAgain(tasks: map<Uuid, Task>, id: Uuid, k: Uuid, d: Uuid)
    requires id in tasks && d in tasks && k in tasks && d in tasks[k].dependsOn && (k == id || Above(tasks, id, k))
    ensures Above(tasks, id, d)
  {
    var path := [id];
    if k != id {
      path :| JobOutcome.IsPath(tasks, path) && |path| >= 2 && path[0] == id && path[|path| - 1] == k;
    }
    var longer := path + [d];
    assert JobOutcome.IsPath(tasks, longer) && longer[|longer| - 1] == d;
  }

  /** A task with nothing left to hear of, and not stuck, is in flight until it has been processed. */
  lemma InFlightUntilProcessed(s: State, x: Uuid)
    requires Inv(s) && x in s.tasks && x !in s.past.processed && !Stuck(s, x)
    requires forall d :: d in s.tasks[x].dependsOn ==> d in s.past.processed
    ensures x in s.inFlight
  {
    assert TaskOk(s, x);
    var t := s.tasks[x];
    if !t.status.IsDone() {
      WithoutAll(t.dependsOn, s.past.processed);
    }
  }

  /** While a task of a job without stuck tasks waits for a dependency, some other task is in flight. */
  lemma OtherInFlight(s: State, id: Uuid) returns (x: Uuid)
    requires Inv(s) && id in s.tasks && !s.tasks[id].status.IsDone() && s.tasks[id].live != []
    requires !HasStuck(s, s.tasks[id].jobId)
    ensures x in s.inFlight && x in s.tasks && x != id
  {
    assert TaskOk(s, id);
    WithoutMembers(s.tasks[id].dependsOn, s.past.processed);
    var d := s.tasks[id].live[0];
    assert d in s.tasks[id].live;
    AboveAgain(s.tasks, id, id, d);
    var group := set k | k in s.tasks && k !in s.past.processed && Above(s.tasks, id, k);
    assert d in group;
    x := RootOf(s.tasks, group);
    assert TaskOk(s, x);
    forall e | e in s.tasks[x].dependsOn
      ensures e in s.past.processed
    {
      AboveAgain(s.tasks, id, x, e);
    }
    AboveStaysInJob(s, id, x);
    assert !Stuck(s, x);
    InFlightUntilProcessed(s, x);
    NotAboveItself(s.tasks, id);
  }

  lemma AboveStaysInJob(s: State, id: Uuid, k: Uuid)
    requires Tidy(s) && Above(s.tasks, id, k)
    ensures k in s.tasks && id in s.tasks && s.tasks[k].jobId == s.tasks[id].jobId
  {
    var path :| JobOutcome.IsPath(s.tasks, path) && |path| >= 2 && path[0] == id && path[|path| - 1] == k;
    JobOutcome.PathStaysInJob(s, path, |path| - 1);
  }

  lemma EventThenRun(s: State, e: Event, rest: seq<Event>)
    requires !e.Add? && Enabled(s, e) && WorksThrough(Apply(s, e), rest)
    ensures WorksThrough(s, [e] + rest) && EndOf(s, [e] + rest) == EndOf(Apply(s, e), rest)
  {
    assert ([e] + rest)[1..] == rest;
  }

  /** Some run, in which every worker completes, dispatches the task once more when its last dependency ends. */
  lemma {:induction false} LastDependencyDispatches(s: State, id: Uuid) returns (run: seq<Event>)
    requires Inv(s) && id in s.tasks && !s.tasks[id].status.IsDone() && s.tasks[id].live != []
    requires !HasStuck(s, s.tasks[id].jobId)
    ensures WorksThrough(s, run) && EndOf(s, run).past.dispatched[id] > s.past.dispatched[id]
    decreases Measure(s)
  {
    var x := OtherInFlight(s, id);
    var e := if s.tasks[x].status.IsDone() then Process(x) else Work(x, Completed);
    StepKeepsInv(s, e);
    StaysInUnstuckJob(s, e, id);
    var rest := [];
    if e.Work? {
      WorkDecreases(s, x, Completed);
      rest := LastDependencyDispatches(Apply(s, e), id);
    } else {
      ProcessDecreases(s, x);
      HearsOf(s, x, id);
      if !Wakes(s, x, id) {
        rest := LastDependencyDispatches(Apply(s, e), id);
      }
    }
    EventThenRun(s, e, rest);
    run := [e] + rest;
  }

  lemma StaysInUnstuckJob(s: State, e: Event, id: Uuid)
    requires Inv(s) && Enabled(s, e) && !Refused(s, e) && id in s.tasks && !HasStuck(s, s.tasks[id].jobId)
    ensures id in Apply(s, e).tasks && !HasStuck(Apply(s, e), Apply(s, e).tasks[id].jobId)
  {
    StepKeepsUnstuck(s, e, s.tasks[id].jobId);
    StepKeepsJobOf(s, e, id);
  }

  /** Nothing has been heard yet that matters: two live dependencies at least, none of them done. */
  ghost predicate Unheard(s: State, id: Uuid) {
    && id in s.tasks && !HasStuck(s, s.tasks[id].jobId) && !s.tasks[id].status.IsDone() && |s.tasks[id].live| >= 2
    && forall d :: d in s.tasks[id].live ==> d in s.tasks && !s.tasks[d].status.IsDone()
  }

  /** Fail the first live dependency to be worked on; it dispatches the task, and so does the last one. */
  lemma {:induction false} FirstFailureDispatchesToo(s: State, id: Uuid) returns (run: seq<Event>)
    requires Inv(s) && Unheard(s, id)
    ensures WorksThrough(s, run) && EndOf(s, run).past.dispatched[id] >= s.past.dispatched[id] + 2
    decreases Measure(s)
  {
    var x := OtherInFlight(s, id);
    if x in s.tasks[id].live {
      run := FailThenFinish(s, id, x);
      return;
    }
    var e := if s.tasks[x].status.IsDone() then Process(x) else Work(x, Completed);
    StepKeepsInv(s, e);
    StaysInUnstuckJob(s, e, id);
    if e.Work? {
      WorkDecreases(s, x, Completed);
    } else {
      ProcessDecreases(s, x);
      StaysUnheard(s, id, x);
    }
    var rest := FirstFailureDispatchesToo(Apply(s, e), id);
    EventThenRun(s, e, rest);
    run := [e] + rest;
  }

  lemma StaysUnheard(s: State, id: Uuid, x: Uuid)
    requires Inv(s) && Unheard(s, id) && CanProcess(s, x) && x != id && x !in s.tasks[id].live
    ensures Unheard(ProcessTask(s, x), id)
    ensures ProcessTask(s, x).past.dispatched[id] == s.past.dispatched[id]
  {
    HearsOf(s, x, id);
    StaysInUnstuckJob(s, Process(x), id);
    forall d | d in s.tasks[id].live
      ensures d in ProcessTask(s, x).tasks && !ProcessTask(s, x).tasks[d].status.IsDone()
    {
      HearsOf(s, x, d);
    }
  }

  lemma FailThenFinish(s: State, id: Uuid, x: Uuid) returns (run: seq<Event>)
    requires Inv(s) && Unheard(s, id) && x in s.inFlight && x in s.tasks[id].live && x != id
    ensures WorksThrough(s, run) && EndOf(s, run).past.dispatched[id] >= s.past.dispatched[id] + 2
  {
    var fail, back := Work(x, Failed), Process(x);
    StepKeepsInv(s, fail);
    var s1 := Apply(s, fail);
    StaysInUnstuckJob(s, fail, id);
    StepKeepsInv(s1, back);
    StaysInUnstuckJob(s1, back, id);
    HearsOf(s1, x, id);
    var rest := LastDependencyDispatches(Apply(s1, back), id);
    EventThenRun(s1, back, rest);
    EventThenRun(s, fail, [back] + rest);
    run := [fail] + ([back] + rest);
  }

  // ---------- The exact condition ----------

  /** Some run after s, new jobs included, dispatches the task a second time. */
  ghost predicate CanBeDispatchedTwice(s: State, id: Uuid) {
    exists run {:trigger Follows(s, run)} :: Follows(s, run) && Reached(s, run).past.dispatched[id] >= 2
  }

  lemma ArrivalCounts(prefix: seq<Event>, e: Event, id: Uuid)
    requires IsRun(prefix) && Enabled(After(prefix), e) && e.Add? && e.jobId !in After(prefix).jobs && id in e.newTasks
    ensures var s := Apply(After(prefix), e);
      && Inv(s) && id in s.tasks && s.tasks[id] == e.newTasks[id] && !HasStuck(s, s.tasks[id].jobId)
      && s.past.dispatched[id] == if e.newTasks[id].IsReadyToRun() then 1 else 0
    ensures var s := Apply(After(prefix), e);
      forall d :: d in e.newTasks ==> d in s.tasks && s.tasks[d] == e.newTasks[d]
  {
    JobDispatch.ReachableDispatch(prefix);
    StepKeepsInv(After(prefix), e);
    assert NewTaskOk(e.jobId, id, e.newTasks);
    NewJobIsUnstuck(After(prefix), e);
    assert id !in After(prefix).past.dispatched;
  }

  /**
   * For any job, whatever else the handler holds: a task of it can be dispatched twice exactly when, as the job is
   * added, the task is unfinished and waits for two unfinished dependencies, or for one although another has failed.
   */
  lemma DispatchedTwiceIff(prefix: seq<Event>, e: Event, id: Uuid)
    requires IsRun(prefix) && Enabled(After(prefix), e) && e.Add? && e.jobId !in After(prefix).jobs && id in e.newTasks
    ensures CanBeDispatchedTwice(Apply(After(prefix), e), id) <==> MayRepeat(e.newTasks[id])
  {
    ArrivalCounts(prefix, e, id);
    var s, t := Apply(After(prefix), e), e.newTasks[id];
    if MayRepeat(t) {
      if t.cancelling {
        var run := LastDependencyDispatches(s, id);
        WorkingFollows(s, run);
      } else {
        WaitsForUnfinished(e, id);
        var run := FirstFailureDispatchesToo(s, id);
        WorkingFollows(s, run);
      }
    } else {
      forall run | Follows(s, run)
        ensures Reached(s, run).past.dispatched[id] < 2
      {
        RunLowersPotential(s, run, id);
      }
    }
  }

  lemma WaitsForUnfinished(e: Event, id: Uuid)
    requires e.Add? && id in e.newTasks && NewTaskOk(e.jobId, id, e.newTasks) && !e.newTasks[id].status.IsDone()
    ensures forall d :: d in e.newTasks[id].live ==> d in e.newTasks && !e.newTasks[d].status.IsDone()
  {
    WithoutMembers(e.newTasks[id].dependsOn, DoneOf(e.newTasks));
  }
}
