/** What becomes of the outcome when a worker completes a task that it should have cancelled. */
module JobCareless {
  import opened Sequences
  import opened Tasks
  import opened JobHandling
  import opened JobOutcome
  import Requests
  import JobReturns
  import JobRepeats

  /** The rows of every job added come with an explanation; of the workers nothing is asked. */
  ghost predicate AddsExplained(run: seq<Event>)
    requires IsRun(run)
  {
    run == [] ||
    (AddsExplained(run[..|run| - 1]) && (run[|run| - 1].Add? ==> Careful(After(run[..|run| - 1]), run[|run| - 1])))
  }

  // ---------- Failures have reasons in any case ----------

  /** Done statuses and dependency lists stay as they are. */
  lemma DoneStays(s: State, e: Event, id: Uuid)
    requires Inv(s) && Enabled(s, e) && id in s.tasks
    ensures id in Apply(s, e).tasks && Apply(s, e).tasks[id].dependsOn == s.tasks[id].dependsOn
    ensures s.tasks[id].status.IsDone() ==> Apply(s, e).tasks[id].status == s.tasks[id].status
  {
    StepKeepsJobOf(s, e, id);
    match e
    case Add(jobId, _, newTasks, _) => assert jobId !in s.jobs ==> id !in newTasks;
    case Work(_, _) =>
    case Process(x) =>
      ProcessTaskStep(s, x);
      if CanProcess(s, x) {
        ProcessedFields(s, x, Apply(s, e), id);
      }
  }

  lemma FailedDependencyStays(s: State, e: Event, id: Uuid)
    requires Inv(s) && Enabled(s, e) && id in s.tasks && FailedDependency(s.tasks, s.tasks[id])
    ensures id in Apply(s, e).tasks && FailedDependency(Apply(s, e).tasks, Apply(s, e).tasks[id])
  {
    DoneStays(s, e, id);
    var d :| d in s.tasks[id].dependsOn && d in s.tasks && s.tasks[d].status.IsFailed();
    DoneStays(s, e, d);
  }

  /** Whoever was told to cancel has a failed dependency. */
  lemma CancellingHasReason(s: State, id: Uuid)
    requires Inv(s) && id in s.tasks && s.tasks[id].cancelling
    ensures FailedDependency(s.tasks, s.tasks[id])
  {
    assert TaskOk(s, id);
  }

  lemma WorkKeepsFailures(s: State, id: Uuid, status: Status, k: Uuid)
    requires Inv(s) && FailuresExplained(s.tasks, s.past.alone) && CanWork(s, id, status) && k in s.tasks
    ensures k in WorkOn(s, id, status).tasks
    ensures FailureOk(WorkOn(s, id, status).tasks, WorkOn(s, id, status).past.alone, k)
  {
    assert FailureOk(s.tasks, s.past.alone, k);
    if k == id && s.tasks[id].cancelling {
      CancellingHasReason(s, id);
    }
    if FailedDependency(s.tasks, s.tasks[k]) {
      FailedDependencyStays(s, Work(id, status), k);
    }
  }

  lemma ReturnKeepsFailures(s: State, id: Uuid, k: Uuid)
    requires Inv(s) && FailuresExplained(s.tasks, s.past.alone) && CanReturn(s, id) && k in s.tasks
    ensures k in ProcessTask(s, id).tasks && ProcessTask(s, id).past.alone == s.past.alone
    ensures FailureOk(ProcessTask(s, id).tasks, s.past.alone, k)
  {
    assert FailureOk(s.tasks, s.past.alone, k);
    ProcessTaskStep(s, id);
    if CanProcess(s, id) {
      ProcessedFields(s, id, ProcessTask(s, id), k);
      if k == id && s.tasks[id].IsCancelling() {
        CancellingHasReason(s, id);
      }
      if FailedDependency(s.tasks, s.tasks[k]) {
        FailedDependencyStays(s, Process(id), k);
      }
    }
  }

  lemma AddKeepsFailures(s: State, e: Event, k: Uuid)
    requires Inv(s) && FailuresExplained(s.tasks, s.past.alone) && e.Add? && Enabled(s, e) && e.jobId !in s.jobs
    requires Explained(e.newTasks, e.alone) && k in Apply(s, e).tasks
    ensures FailureOk(Apply(s, e).tasks, Apply(s, e).past.alone, k)
  {
    var s' := Apply(s, e);
    if k in e.newTasks {
      assert OutcomeOk(e.newTasks, e.alone, k) && k !in s.past.alone;
      if FailedDependency(e.newTasks, e.newTasks[k]) {
        assert FailedDependency(s'.tasks, s'.tasks[k]);
      }
    } else {
      assert FailureOk(s.tasks, s.past.alone, k) && k !in e.alone;
      if FailedDependency(s.tasks, s.tasks[k]) {
        FailedDependencyStays(s, e, k);
      }
    }
  }

  lemma {:induction false} ReachableFailures(run: seq<Event>)
    requires IsRun(run) && AddsExplained(run)
    ensures FailuresExplained(After(run).tasks, After(run).past.alone)
  {
    if run == [] {
    } else {
      var s, e := After(run[..|run| - 1]), run[|run| - 1];
      ReachableInv(run[..|run| - 1]);
      ReachableFailures(run[..|run| - 1]);
      StepKeepsFailures(s, e);
    }
  }

  lemma StepKeepsFailures(s: State, e: Event)
    requires Inv(s) && FailuresExplained(s.tasks, s.past.alone) && Enabled(s, e) && (e.Add? ==> Careful(s, e))
    ensures FailuresExplained(Apply(s, e).tasks, Apply(s, e).past.alone)
  {
    var s' := Apply(s, e);
    forall k | k in s'.tasks
      ensures FailureOk(s'.tasks, s'.past.alone, k)
    {
      match e
      case Add(jobId, _, _, _) =>
        if jobId in s.jobs {
          assert FailureOk(s.tasks, s.past.alone, k);
        } else {
          AddKeepsFailures(s, e, k);
        }
      case Work(id, status) => WorkKeepsFailures(s, id, status, k);
      case Process(id) =>
        ProcessTaskStep(s, id);
        ReturnKeepsFailures(s, id, k);
    }
    if e.Process? {
      ProcessTaskStep(s, e.id);
    }
  }

  // ---------- A careless completion shows ----------

  /** A completed task with a dependency that ended badly. */
  ghost predicate Careless(s: State, id: Uuid) {
    id in s.tasks && s.tasks[id].status == Completed && FailedDependency(s.tasks, s.tasks[id])
  }

  ghost predicate SomeCareless(s: State) {
    exists id :: Careless(s, id)
  }

  lemma {:induction false} CarelessnessShows(run: seq<Event>) returns (id: Uuid)
    requires IsRun(run) && AddsExplained(run) && !IsCarefulRun(run)
    ensures Careless(After(run), id)
  {
    var before, e := run[..|run| - 1], run[|run| - 1];
    ReachableInv(before);
    if IsCarefulRun(before) {
      id := e.id;
      CancellingHasReason(After(before), id);
    } else {
      id := CarelessnessShows(before);
      DoneStays(After(before), e, id);
    }
    FailedDependencyStays(After(before), e, id);
  }

  /** In every reachable state: some completed task has a bad dependency exactly when some worker was careless. */
  lemma CarelessIff(run: seq<Event>)
    requires IsRun(run) && AddsExplained(run)
    ensures IsCarefulRun(run) <==> !SomeCareless(After(run))
  {
    if IsCarefulRun(run) {
      ReachableOutcome(run);
      var s := After(run);
      forall id
        ensures !Careless(s, id)
      {
        if id in s.tasks {
          assert OutcomeOk(s.tasks, s.past.alone, id);
        }
      }
    } else {
      var id := CarelessnessShows(run);
      assert SomeCareless(After(run));
    }
  }

  /** The outcome is that of the graph: what completed is what reaches no task that failed on its own. */
  ghost predicate OutcomeIsTheGraphs(s: State) {
    forall id :: id in s.tasks ==> (s.tasks[id].status == Completed <==> !Reaches(s.tasks, id, s.past.alone))
  }

  lemma CarelessReaches(s: State, id: Uuid)
    requires Inv(s) && FailuresExplained(s.tasks, s.past.alone) && Careless(s, id)
    ensures Reaches(s.tasks, id, s.past.alone)
  {
    var d :| d in s.tasks[id].dependsOn && d in s.tasks && s.tasks[d].status.IsFailed();
    FailureComesFrom(s.tasks, s.past.alone, d);
    var path :| IsPath(s.tasks, path) && path[0] == d && path[|path| - 1] in s.past.alone;
    var longer := [id] + path;
    assert IsPath(s.tasks, longer) && longer[|longer| - 1] == path[|path| - 1];
  }

  /**
   * When all jobs are over, their outcome is that of the graph exactly when no worker completed a task that it had
   * been told to cancel.
   */
  lemma OutcomeIsTheGraphsIff(run: seq<Event>)
    requires IsRun(run) && AddsExplained(run) && After(run).jobs == map[]
    ensures OutcomeIsTheGraphs(After(run)) <==> IsCarefulRun(run)
  {
    if IsCarefulRun(run) {
      forall id | id in After(run).tasks
        ensures After(run).tasks[id].status == Completed <==> !Reaches(After(run).tasks, id, After(run).past.alone)
      {
        OutcomeIsTheClosure(run, id);
      }
    } else {
      var id := CarelessnessShows(run);
      ReachableInv(run);
      ReachableFailures(run);
      CarelessReaches(After(run), id);
    }
  }

  // ---------- The smallest such run ----------

  /** A chain of two, as the first two steps of every create-database job. */
  ghost predicate TwoSteps(add: Event, first: Task, second: Task) {
    && add.Add? && Requests.IsChain(add.jobId, [first, second]) && Requests.Lists([first, second], add.newTasks)
    && add.members == Requests.IdsOf([first, second]) && add.alone == {}
  }

  lemma TwoStepsArrive(add: Event, first: Task, second: Task)
    requires TwoSteps(add, first, second)
    ensures IsRun([add]) && AddsExplained([add]) && first.id != second.id
    ensures var s := After([add]);
      && first.id in s.tasks && s.tasks[first.id] == first && second.id in s.tasks && s.tasks[second.id] == second
      && s.tasks == add.newTasks && s.jobs == map[add.jobId := add.members] && CanWork(s, first.id, Failed)
  {
    var tasks := [first, second];
    Requests.ChainCanBeAdded(INITIAL, add.jobId, tasks, add.newTasks);
    assert Requests.IsLink(add.jobId, tasks, 0) && Requests.IsLink(add.jobId, tasks, 1);
    assert tasks[0] == first && tasks[1] == second;
    JobReturns.FirstEvent(add);
    JobReturns.ReadyTaskIsDispatched(INITIAL, add, first.id);
    NewTasksExplained(add, first, second);
    assert [add][..0] == [];
  }

  lemma NewTasksExplained(add: Event, first: Task, second: Task)
    requires TwoSteps(add, first, second)
    ensures Explained(add.newTasks, {})
  {
    var tasks := [first, second];
    assert Requests.IsLink(add.jobId, tasks, 0) && Requests.IsLink(add.jobId, tasks, 1);
    forall id | id in add.newTasks
      ensures OutcomeOk(add.newTasks, {}, id)
    {
      var i :| 0 <= i < |tasks| && tasks[i].id == id;
      assert Requests.IsLink(add.jobId, tasks, i);
    }
  }

  /** The first step fails and is announced; the second is told to cancel, and is in flight. */
  lemma FirstStepFails(s: State, jobId: Uuid, x: Uuid, y: Uuid)
    requires Inv(s) && x != y && x in s.tasks && y in s.tasks && CanWork(s, x, Failed)
    requires s.tasks[x].jobId == jobId && s.tasks[y].jobId == jobId
    requires s.tasks[y].status == Pending && s.tasks[y].live == [x] && s.tasks[y].dependsOn == [x]
    ensures CanProcess(WorkOn(s, x, Failed), x)
    ensures var s' := ProcessTask(WorkOn(s, x, Failed), x);
      && x in s'.tasks && s'.tasks[x].status == Failed && CanWork(s', y, Completed)
      && s'.tasks.Keys == s.tasks.Keys && s'.tasks[y].dependsOn == [x] && s'.tasks[y].jobId == jobId
      && s'.jobs == s.jobs
  {
    var s1 := WorkOn(s, x, Failed);
    StepKeepsInv(s, Work(x, Failed));
    assert s1.tasks[y] == s.tasks[y] && s1.jobs == s.jobs;
    FailureIsHeard(s1, jobId, x, y);
  }

  lemma FailureIsHeard(s: State, jobId: Uuid, x: Uuid, y: Uuid)
    requires Inv(s) && x != y && CanProcess(s, x) && y in s.tasks && s.tasks[x].status == Failed
    requires s.tasks[x].jobId == jobId && s.tasks[y].jobId == jobId
    requires s.tasks[y].status == Pending && s.tasks[y].live == [x] && s.tasks[y].dependsOn == [x]
    ensures var s' := ProcessTask(s, x);
      && x in s'.tasks && s'.tasks[x].status == Failed && CanWork(s', y, Completed)
      && s'.tasks.Keys == s.tasks.Keys && s'.tasks[y].dependsOn == [x] && s'.tasks[y].jobId == jobId
      && s'.jobs == s.jobs
  {
    assert TaskOk(s, y);
    JobRepeats.HearsOf(s, x, y);
    ProcessTaskStep(s, x);
    ProcessedFields(s, x, ProcessTask(s, x), x);
    assert !Finished(ProcessTask(s, x).tasks, s.jobs[jobId]);
  }

  /** The state in which the second step has been told to cancel. */
  ghost predicate Halfway(s: State, jobId: Uuid, x: Uuid, y: Uuid) {
    && x != y && s.tasks.Keys == {x, y} && s.tasks[x].status == Failed && CanWork(s, y, Completed)
    && s.tasks[y].jobId == jobId && s.tasks[y].dependsOn == [x] && s.jobs.Keys == {jobId}
  }

  /** The second completes all the same, and the job is over. */
  lemma SecondStepCompletes(s: State, jobId: Uuid, x: Uuid, y: Uuid)
    requires Inv(s) && Halfway(s, jobId, x, y)
    ensures CanProcess(WorkOn(s, y, Completed), y)
    ensures var s' := ProcessTask(WorkOn(s, y, Completed), y); s'.jobs == map[] && Careless(s', y)
  {
    var s1 := WorkOn(s, y, Completed);
    StepKeepsInv(s, Work(y, Completed));
    assert x in s1.tasks[y].dependsOn && s1.tasks[x] == s.tasks[x];
    assert Careless(s1, y);
    LastStepEndsJob(s1, jobId, x, y);
  }

  lemma LastStepEndsJob(s: State, jobId: Uuid, x: Uuid, y: Uuid)
    requires Inv(s) && CanProcess(s, y) && Careless(s, y) && s.tasks.Keys == {x, y} && s.tasks[x].status.IsDone()
    requires s.tasks[y].jobId == jobId && s.jobs.Keys == {jobId}
    ensures ProcessTask(s, y).jobs == map[] && Careless(ProcessTask(s, y), y)
  {
    ProcessTaskStep(s, y);
    DoneStays(s, Process(y), x);
    DoneStays(s, Process(y), y);
    FailedDependencyStays(s, Process(y), y);
    assert Finished(ProcessTask(s, y).tasks, s.jobs[jobId]);
  }

  lemma TwoStepsHalfway(add: Event, first: Task, second: Task) returns (half: seq<Event>)
    requires TwoSteps(add, first, second)
    ensures half == [add] + [Work(first.id, Failed)] + [Process(first.id)]
    ensures IsRun(half) && AddsExplained(half) && Halfway(After(half), add.jobId, first.id, second.id)
  {
    TwoStepsArrive(add, first, second);
    TwoStepsKeys(add, first, second);
    ReachableInv([add]);
    FirstStepFails(After([add]), add.jobId, first.id, second.id);
    WorkThenReturn([add], first.id, Failed);
    half := [add] + [Work(first.id, Failed)] + [Process(first.id)];
  }

  /**
   * A create-user step fails and the create step after it completes all the same: the job ends, and not with the
   * outcome of the graph.
   */
  lemma TwoStepsGoAstray(add: Event, first: Task, second: Task) returns (run: seq<Event>)
    requires TwoSteps(add, first, second)
    ensures IsRun(run) && AddsExplained(run) && After(run).jobs == map[]
    ensures run == [add] + [Work(first.id, Failed)] + [Process(first.id)] + [Work(second.id, Completed)]
                   + [Process(second.id)]
    ensures !IsCarefulRun(run) && !OutcomeIsTheGraphs(After(run))
  {
    var half := TwoStepsHalfway(add, first, second);
    run := half + [Work(second.id, Completed)] + [Process(second.id)];
    HalfwayGoesAstray(half, add.jobId, first.id, second.id);
  }

  lemma HalfwayGoesAstray(half: seq<Event>, jobId: Uuid, x: Uuid, y: Uuid)
    requires IsRun(half) && AddsExplained(half) && Halfway(After(half), jobId, x, y)
    ensures var run := half + [Work(y, Completed)] + [Process(y)];
      && IsRun(run) && AddsExplained(run) && After(run).jobs == map[]
      && !IsCarefulRun(run) && !OutcomeIsTheGraphs(After(run))
  {
    ReachableInv(half);
    SecondStepCompletes(After(half), jobId, x, y);
    WorkThenReturn(half, y, Completed);
    var run := half + [Work(y, Completed)] + [Process(y)];
    assert SomeCareless(After(run));
    CarelessIff(run);
    OutcomeIsTheGraphsIff(run);
  }

  lemma TwoStepsKeys(add: Event, first: Task, second: Task)
    requires TwoSteps(add, first, second)
    ensures add.newTasks.Keys == {first.id, second.id}
    ensures first.jobId == add.jobId && second.jobId == add.jobId
    ensures second.status == Pending && second.live == [first.id] && second.dependsOn == [first.id]
  {
    var tasks := [first, second];
    assert Requests.IsLink(add.jobId, tasks, 0) && Requests.IsLink(add.jobId, tasks, 1);
    assert tasks[0] == first && tasks[1] == second;
  }

  lemma {:induction false} WorkThenReturn(run: seq<Event>, id: Uuid, status: Status)
    requires IsRun(run) && AddsExplained(run) && CanWork(After(run), id, status)
    requires Enabled(WorkOn(After(run), id, status), Process(id))
    ensures var longer := run + [Work(id, status)] + [Process(id)];
      && IsRun(longer) && AddsExplained(longer)
      && After(longer) == ProcessTask(WorkOn(After(run), id, status), id)
  {
    var once := run + [Work(id, status)];
    RunOneMore(run, Work(id, status));
    RunOneMore(once, Process(id));
    assert once[..|once| - 1] == run;
    assert (once + [Process(id)])[..|once + [Process(id)]| - 1] == once;
  }
}
