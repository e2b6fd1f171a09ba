/** How often, and when, a task is dispatched. */
module JobDispatch {
  import opened Sequences
  import opened Tasks
  import opened JobHandling

  /** A task that cannot hear of a failure and of something else: one dependency at most, or no failed one. */
  ghost predicate Plain(s: State, t: Task) {
    |t.dependsOn| <= 1 || !exists d :: d in t.dependsOn && d in s.tasks && s.tasks[d].status.IsFailed()
  }

  predicate Awake(t: Task) {
    t.live == [] || t.cancelling
  }

  ghost predicate DispatchOk(s: State, id: Uuid)
    requires id in s.tasks
  {
    var t := s.tasks[id];
    && (s.past.dispatched[id] > 0 ==> Awake(t))
    && (id in s.past.arrivedDone ==> t.status.IsDone())
    && (Plain(s, t) ==>
          s.past.dispatched[id] == if id in s.past.arrivedDone || (!t.status.IsDone() && !Awake(t)) then 0 else 1)
  }

  ghost predicate DispatchInv(s: State) {
    && (forall id {:trigger DispatchOk(s, id)} :: id in s.tasks ==> DispatchOk(s, id))
    && (forall id :: id in s.past.dispatched ==> id in s.tasks)
    && (forall id {:trigger s.inFlight[id]} :: s.inFlight[id] <= s.past.dispatched[id])
    && s.past.arrivedDone <= s.tasks.Keys
  }

  lemma AddKeepsDispatch(s: State, jobId: Uuid, members: seq<Uuid>, newTasks: map<Uuid, Task>, alone: set<Uuid>)
    requires Tidy(s) && DispatchInv(s) && WellFormedJob(s, jobId, members, newTasks)
    ensures DispatchInv(AddJob(s, jobId, members, newTasks, alone))
  {
    var s' := AddJob(s, jobId, members, newTasks, alone);
    if jobId !in s.jobs {
      forall id | id in s'.tasks
        ensures DispatchOk(s', id)
      {
        if id in newTasks {
          assert NewTaskOk(jobId, id, newTasks);
          assert s.past.dispatched[id] == 0;
        } else {
          assert DispatchOk(s, id) && TaskOk(s, id);
          assert forall k :: k in s.tasks ==> s'.tasks[k] == s.tasks[k];
          assert s'.past.dispatched[id] == s.past.dispatched[id];
          assert Plain(s', s'.tasks[id]) ==> Plain(s, s.tasks[id]);
        }
      }
    }
  }

  lemma WorkKeepsDispatch(s: State, id: Uuid, status: Status)
    requires Tidy(s) && DispatchInv(s) && CanWork(s, id, status)
    ensures DispatchInv(WorkOn(s, id, status))
  {
    var s' := WorkOn(s, id, status);
    forall k | k in s'.tasks
      ensures DispatchOk(s', k)
    {
      assert DispatchOk(s, k) && TaskOk(s, k);
      assert Plain(s', s'.tasks[k]) ==> Plain(s, s.tasks[k]);
    }
  }

  /** Failed dependencies stay failed, so a plain task was plain before. */
  lemma PlainBefore(s: State, id: Uuid, s': State, k: Uuid)
    requires Stepping(s, id, s') && k in s.tasks && Plain(s', s'.tasks[k])
    ensures Plain(s, s.tasks[k])
  {
    if |s.tasks[k].dependsOn| > 1 {
      forall d | d in s.tasks[k].dependsOn && d in s.tasks
        ensures !s.tasks[d].status.IsFailed()
      {
        assert s'.tasks[d] == Processed(s, id, d);
      }
    }
  }

  /** A plain task is woken at most while it is still asleep. */
  lemma PlainWakesAsleep(s: State, id: Uuid, k: Uuid)
    requires Tidy(s) && CanProcess(s, id) && k in s.tasks && k != id
    requires Plain(s, s.tasks[k]) && Wakes(s, id, k)
    ensures !Awake(s.tasks[k])
  {
    var u := s.tasks[k];
    assert TaskOk(s, k);
    WithoutMembers(u.dependsOn, s.past.processed);
    assert forall d :: d in u.dependsOn && d !in u.live ==> |u.dependsOn| > 1;
    assert !HeardFailure(s, u);
  }

  /** An announcement puts no task back to sleep, and wakes exactly those it dispatches. */
  lemma AwakeAfter(s: State, id: Uuid, s': State, k: Uuid)
    requires Stepping(s, id, s') && k in s.tasks && k != id && !s.tasks[k].status.IsDone()
    ensures Awake(s'.tasks[k]) <==> Awake(s.tasks[k]) || Wakes(s, id, k)
  {
    var u := s.tasks[k];
    assert TaskOk(s, k);
    WithoutMembers(u.dependsOn, s.past.processed);
    if id in u.live {
      NotConcerned(s, id, k);
      if !Awake(u) {
        WakesUpWhenReady(u, id, Settled(s.tasks[id]).status.IsFailed());
      }
    }
  }

  lemma ProcessedDispatchOk(s: State, id: Uuid, s': State, k: Uuid)
    requires Stepping(s, id, s') && DispatchInv(s) && k in s.tasks
    requires s'.past.dispatched[id] == s.past.dispatched[id]
    ensures DispatchOk(s', k)
  {
    var u, t := s.tasks[k], s'.tasks[k];
    assert DispatchOk(s, k) && TaskOk(s, k);
    if k == id {
      assert t == Settled(u) && Awake(t) == Awake(u);
      assert !u.status.IsDone() ==> Awake(u);
      if Plain(s', t) {
        PlainBefore(s, id, s', k);
      }
    } else {
      assert s'.past.dispatched[k] == s.past.dispatched[k] + if Wakes(s, id, k) then 1 else 0;
      if !u.status.IsDone() {
        AwakeAfter(s, id, s', k);
      } else {
        assert t == u;
      }
      if Plain(s', t) {
        PlainBefore(s, id, s', k);
        if Wakes(s, id, k) {
          PlainWakesAsleep(s, id, k);
        }
      }
    }
  }

  lemma ProcessKeepsDispatch(s: State, id: Uuid)
    requires Tidy(s) && DispatchInv(s) && CanProcess(s, id)
    ensures DispatchInv(ProcessTask(s, id))
  {
    ProcessTaskStep(s, id);
    var s' := ProcessTask(s, id);
    NotDispatchedItself(s, id);
    forall k | k in s'.tasks
      ensures DispatchOk(s', k)
    {
      ProcessedDispatchOk(s, id, s', k);
    }
  }

  lemma ReturnKeepsDispatch(s: State, id: Uuid)
    requires Tidy(s) && DispatchInv(s) && CanReturn(s, id)
    ensures DispatchInv(ProcessTask(s, id))
  {
    if CanProcess(s, id) {
      ProcessKeepsDispatch(s, id);
    } else {
      ProcessTaskStep(s, id);
      forall k | k in ProcessTask(s, id).tasks
        ensures DispatchOk(ProcessTask(s, id), k)
      {
        assert DispatchOk(s, k);
      }
    }
  }

  /** A task that is being announced is done, so it is not dispatched; neither are unknown tasks. */
  lemma NotDispatchedItself(s: State, id: Uuid)
    requires Tidy(s) && CanProcess(s, id)
    ensures ProcessTask(s, id).past.dispatched[id] == s.past.dispatched[id]
    ensures forall k :: k in ProcessTask(s, id).past.dispatched ==> k in s.tasks || k in s.past.dispatched
  {
    var t := Settled(s.tasks[id]);
    if t.jobId in s.jobs {
      var tasks1 := s.tasks[id := t];
      var woken := Woken(tasks1, s.jobs[t.jobId], id, t.status.IsFailed());
      assert ProcessTask(s, id).past.dispatched == s.past.dispatched + multiset(woken);
      assert id !in woken;
    }
  }

  lemma {:induction false} ReachableDispatch(run: seq<Event>)
    requires IsRun(run)
    ensures Inv(After(run)) && DispatchInv(After(run))
  {
    ReachableInv(run);
    if run == [] {
    } else {
      var s := After(run[..|run| - 1]);
      ReachableDispatch(run[..|run| - 1]);
      match run[|run| - 1] {
        case Add(jobId, members, newTasks, alone) =>
          if jobId !in s.jobs {
            AddKeepsDispatch(s, jobId, members, newTasks, alone);
          }
        case Work(id, status) => WorkKeepsDispatch(s, id, status);
        case Process(id) => ReturnKeepsDispatch(s, id);
      }
    }
  }

  /**
   * In every run, a task with one dependency at most, or none of whose dependencies has failed, is
   * dispatched once at most, and exactly once by the time it is done unless it was done to begin with.
   */
  lemma DispatchedExactlyOnce(run: seq<Event>, id: Uuid)
    requires IsRun(run) && id in After(run).tasks && Plain(After(run), After(run).tasks[id])
    ensures After(run).past.dispatched[id] <= 1
    ensures After(run).tasks[id].status.IsDone() ==>
      After(run).past.dispatched[id] == if id in After(run).past.arrivedDone then 0 else 1
  {
    ReachableDispatch(run);
    assert DispatchOk(After(run), id);
  }

  /** A task that was dispatched and is not cancelling has all its dependencies completed. */
  lemma NeverDispatchedEarly(run: seq<Event>, id: Uuid, d: Uuid)
    requires IsRun(run) && id in After(run).tasks && d in After(run).tasks[id].dependsOn
    requires id in After(run).past.dispatched && !After(run).tasks[id].cancelling
    ensures d in After(run).tasks && After(run).tasks[d].status == Completed
  {
    ReachableDispatch(run);
    var s := After(run);
    assert DispatchOk(s, id) && TaskOk(s, id);
    assert TaskOk(s, d);
    assert !HeardFailure(s, s.tasks[id]);
  }

  // ---------- Why the restriction is needed ----------

  function Plan(id: Uuid, dependsOn: seq<Uuid>): Task {
    Task(id, 9, dependsOn, Pending, dependsOn, false, 0)
  }

  const TWO_PARENTS: map<Uuid, Task> := map[1 := Plan(1, []), 2 := Plan(2, []), 3 := Plan(3, [1, 2])]

  lemma TwoParentsIsAcyclic()
    ensures Acyclic(TWO_PARENTS)
  {
    OnlyTheThirdWaits(TWO_PARENTS);
  }

  lemma OnlyTheThirdWaits(tasks: map<Uuid, Task>)
    requires tasks.Keys == {1, 2, 3}
    requires tasks[1].dependsOn == [] == tasks[2].dependsOn && forall d :: d in tasks[3].dependsOn ==> d == 1 || d == 2
    ensures Acyclic(tasks)
  {
    forall group: set<Uuid> | group != {} && group <= tasks.Keys
      ensures HasRoot(tasks, group)
    {
      TwoParentsHasRoot(tasks, group);
    }
  }

  lemma TwoParentsHasRoot(tasks: map<Uuid, Task>, group: set<Uuid>)
    requires tasks.Keys == {1, 2, 3} && group != {} && group <= tasks.Keys
    requires tasks[1].dependsOn == [] == tasks[2].dependsOn && forall d :: d in tasks[3].dependsOn ==> d == 1 || d == 2
    ensures HasRoot(tasks, group)
  {
    var y :| y in group;
    var x := if 1 in group then 1 else if 2 in group then 2 else 3;
    assert y in tasks.Keys && x in group;
    assert forall d :: d in tasks[x].dependsOn ==> d !in group;
  }

  lemma TwoParentsIsAJob()
    ensures Enabled(INITIAL, Add(9, [1, 2, 3], TWO_PARENTS, {}))
  {
    TwoParentsIsAcyclic();
    AllPending(TWO_PARENTS);
    assert NoDuplicates([1, 2]) && NoDuplicates([1, 2, 3]);
  }

  lemma AllPending(tasks: map<Uuid, Task>)
    requires tasks.Keys == {1, 2, 3}
    requires forall id :: id in tasks ==> tasks[id] == Plan(id, tasks[id].dependsOn)
    requires forall id :: id in tasks ==> NoDuplicates(tasks[id].dependsOn)
    requires forall id, d :: id in tasks && d in tasks[id].dependsOn ==> d in tasks
    ensures forall id :: id in tasks ==> NewTaskOk(9, id, tasks)
  {
    assert DoneOf(tasks) == {} == FailedOf(tasks);
    forall id | id in tasks
      ensures NewTaskOk(9, id, tasks)
    {
      WithoutNothing(tasks[id].dependsOn, {});
    }
  }

  /** Task 3 of the job, as its first n parents have been announced. */
  ghost predicate Child(s: State, live: seq<Uuid>, cancelling: bool, dispatches: nat) {
    && 9 in s.jobs && s.jobs[9] == [1, 2, 3]
    && 3 in s.tasks && s.tasks[3].status == Pending && s.tasks[3].live == live && s.tasks[3].cancelling == cancelling
    && s.past.dispatched[3] == dispatches
  }

  ghost predicate Parent(s: State, id: Uuid, status: Status) {
    id in s.tasks && id in s.inFlight && s.tasks[id].jobId == 9 && s.tasks[id].status == status
  }

  lemma FirstParentFails(s: State)
    requires Child(s, [1, 2], false, 0) && Parent(s, 1, Failed) && Parent(s, 2, Pending)
    ensures Child(ProcessTask(s, 1), [2], true, 1) && Parent(ProcessTask(s, 1), 2, Pending)
  {
    assert RemoveFirst([1, 2], 1) == [2];
    assert WakesUp(s.tasks[3], 1, true);
    ProcessTaskStep(s, 1);
    var s' := ProcessTask(s, 1);
    assert Wakes(s, 1, 3);
    assert s'.past.dispatched[3] == 1;
    assert s'.tasks[3] == Processed(s, 1, 3) && s'.tasks[2] == Processed(s, 1, 2);
    assert s'.inFlight[2] >= s.inFlight[2];
    assert !s'.tasks[3].status.IsDone();
  }

  lemma SecondParentCompletes(s: State)
    requires Child(s, [2], true, 1) && Parent(s, 2, Completed)
    ensures ProcessTask(s, 2).past.dispatched[3] == 2
  {
    assert WakesUp(s.tasks[3], 2, false);
    ProcessTaskStep(s, 2);
    assert Wakes(s, 2, 3);
    assert ProcessTask(s, 2).past.dispatched[3] == 2;
  }

  lemma ParentWorks(s: State, id: Uuid, status: Status)
    requires id != 3 && Parent(s, id, Pending) && status.IsDone()
    ensures CanWork(s, id, status) && Parent(WorkOn(s, id, status), id, status)
    ensures forall live, c, n :: Child(s, live, c, n) ==> Child(WorkOn(s, id, status), live, c, n)
    ensures forall k, st :: k != id && Parent(s, k, st) ==> Parent(WorkOn(s, id, status), k, st)
  {
  }

  lemma BothParentsPending()
    ensures var s := AddJob(INITIAL, 9, [1, 2, 3], TWO_PARENTS, {});
      Child(s, [1, 2], false, 0) && Parent(s, 1, Pending) && Parent(s, 2, Pending)
  {
    assert ReadyOf(TWO_PARENTS) == {1, 2};
    var s := AddJob(INITIAL, 9, [1, 2, 3], TWO_PARENTS, {});
    assert s.tasks == TWO_PARENTS;
    assert s.inFlight == multiset{1, 2} == s.past.dispatched;
  }

  /** Task 3 depends on two tasks: the failure of one and the completion of the other both dispatch it. */
  lemma TwoParentsDispatchTwice() returns (run: seq<Event>)
    ensures IsRun(run) && After(run).past.dispatched[3] == 2
  {
    TwoParentsIsAJob();
    BothParentsPending();
    var add := Add(9, [1, 2, 3], TWO_PARENTS, {});
    var s1 := AddJob(INITIAL, 9, [1, 2, 3], TWO_PARENTS, {});
    RunOneMore([], add);
    run := [] + [add];
    assert After([]) == INITIAL && Apply(INITIAL, add) == s1;
    ParentWorks(s1, 1, Failed);
    var s2 := WorkOn(s1, 1, Failed);
    FirstParentFails(s2);
    var s3 := ProcessTask(s2, 1);
    ParentWorks(s3, 2, Completed);
    var s4 := WorkOn(s3, 2, Completed);
    SecondParentCompletes(s4);
    RunOneMore(run, Work(1, Failed));
    RunOneMore(run + [Work(1, Failed)], Process(1));
    RunOneMore(run + [Work(1, Failed)] + [Process(1)], Work(2, Completed));
    RunOneMore(run + [Work(1, Failed)] + [Process(1)] + [Work(2, Completed)], Process(2));
    run := run + [Work(1, Failed)] + [Process(1)] + [Work(2, Completed)] + [Process(2)];
  }
}
