/** The outcome of a job is fixed by its dependency graph; recovery agrees with the live run. */
module JobOutcome {
  import opened Sequences
  import opened Tasks
  import opened Jobs
  import opened JobHandling
  import JobProgress

  // ---------- What a finished task says about its dependencies ----------

  ghost predicate FailedDependency(tasks: map<Uuid, Task>, t: Task) {
    exists d :: d in t.dependsOn && d in tasks && tasks[d].status.IsFailed()
  }

  /** A bad end has a reason: the task failed on its own, or one of its dependencies ended badly. */
  ghost predicate FailureOk(tasks: map<Uuid, Task>, alone: set<Uuid>, id: Uuid)
    requires id in tasks
  {
    && (tasks[id].status.IsFailed() ==> id in alone || FailedDependency(tasks, tasks[id]))
    && (id in alone ==> tasks[id].status.IsFailed())
  }

  ghost predicate FailuresExplained(tasks: map<Uuid, Task>, alone: set<Uuid>) {
    && (forall id {:trigger FailureOk(tasks, alone, id)} :: id in tasks ==> FailureOk(tasks, alone, id))
    && alone <= tasks.Keys
  }

  /** And a good end means that all dependencies ended well. */
  ghost predicate OutcomeOk(tasks: map<Uuid, Task>, alone: set<Uuid>, id: Uuid)
    requires id in tasks
  {
    && FailureOk(tasks, alone, id)
    && (tasks[id].status == Completed ==>
          forall d :: d in tasks[id].dependsOn ==> d in tasks && tasks[d].status == Completed)
  }

  ghost predicate Explained(tasks: map<Uuid, Task>, alone: set<Uuid>) {
    && (forall id {:trigger OutcomeOk(tasks, alone, id)} :: id in tasks ==> OutcomeOk(tasks, alone, id))
    && alone <= tasks.Keys
  }

  /**
   * The assumption on the workers: a task that is cancelling when its worker finishes it is not reported
   * as completed. The code does not enforce it (the worker tests the status Cancelling, which nothing
   * ever sets). Rows of a recovered job come with an explanation of their failures.
   */
  ghost predicate Careful(s: State, e: Event) {
    match e
    case Add(jobId, _, newTasks, alone) => jobId in s.jobs || Explained(newTasks, alone)
    case Work(id, status) => id in s.tasks && (status == Completed ==> !s.tasks[id].cancelling)
    case Process(_) => true
  }

  ghost predicate IsCarefulRun(run: seq<Event>)
    requires IsRun(run)
  {
    run == [] || (IsCarefulRun(run[..|run| - 1]) && Careful(After(run[..|run| - 1]), run[|run| - 1]))
  }

  lemma AddKeepsOutcome(s: State, jobId: Uuid, members: seq<Uuid>, newTasks: map<Uuid, Task>, alone: set<Uuid>)
    requires Tidy(s) && WellFormedJob(s, jobId, members, newTasks) && jobId !in s.jobs
    requires Explained(s.tasks, s.past.alone) && Explained(newTasks, alone)
    ensures Explained(s.tasks + newTasks, s.past.alone + alone)
  {
    var all, both := s.tasks + newTasks, s.past.alone + alone;
    forall id | id in all
      ensures OutcomeOk(all, both, id)
    {
      if id in newTasks {
        assert OutcomeOk(newTasks, alone, id) && id !in s.past.alone;
        if FailedDependency(newTasks, newTasks[id]) {
          assert FailedDependency(all, all[id]);
        }
      } else {
        assert OutcomeOk(s.tasks, s.past.alone, id) && id !in alone;
        assert forall k :: k in s.tasks ==> all[k] == s.tasks[k];
        if FailedDependency(s.tasks, s.tasks[id]) {
          assert FailedDependency(all, all[id]);
        }
      }
    }
  }

  /** The dependencies of a task in flight that is not cancelling have all completed. */
  lemma CompletedDependencies(s: State, id: Uuid)
    requires Tidy(s) && id in s.tasks && id in s.inFlight
    requires !s.tasks[id].status.IsDone() && !s.tasks[id].cancelling
    ensures forall d :: d in s.tasks[id].dependsOn ==> d in s.tasks && s.tasks[d].status == Completed
  {
    var t := s.tasks[id];
    assert TaskOk(s, id);
    forall d | d in t.dependsOn
      ensures d in s.tasks && s.tasks[d].status == Completed
    {
      assert d !in t.live;
      assert TaskOk(s, d);
      assert !HeardFailure(s, t);
    }
  }

  lemma WorkKeepsOutcome(s: State, id: Uuid, status: Status)
    requires Tidy(s) && Explained(s.tasks, s.past.alone) && CanWork(s, id, status)
    requires Careful(s, Work(id, status))
    ensures Explained(WorkOn(s, id, status).tasks, WorkOn(s, id, status).past.alone)
  {
    var s' := WorkOn(s, id, status);
    assert TaskOk(s, id);
    assert OutcomeOk(s.tasks, s.past.alone, id);
    forall k | k in s'.tasks
      ensures OutcomeOk(s'.tasks, s'.past.alone, k)
    {
      assert OutcomeOk(s.tasks, s.past.alone, k);
      if k != id {
        if FailedDependency(s.tasks, s.tasks[k]) {
          var d :| d in s.tasks[k].dependsOn && d in s.tasks && s.tasks[d].status.IsFailed();
          assert d in s'.tasks && s'.tasks[d].status.IsFailed();
        }
      } else if status == Completed {
        CompletedDependencies(s, id);
      } else if s.tasks[id].cancelling {
        var d :| d in s.tasks[id].dependsOn && d !in s.tasks[id].live && d in s.tasks && s.tasks[d].status.IsFailed();
        assert d in s'.tasks && s'.tasks[d].status.IsFailed();
      }
    }
  }

  /** What processing leaves of a task: its dependencies, and its status unless it was the one to be settled. */
  lemma ProcessedFields(s: State, id: Uuid, s': State, k: Uuid)
    requires Stepping(s, id, s') && k in s.tasks
    ensures k in s'.tasks && s'.tasks[k].dependsOn == s.tasks[k].dependsOn
    ensures s'.tasks[k].status == if k == id then Settled(s.tasks[id]).status else s.tasks[k].status
    ensures s.tasks[k].status.IsDone() ==> s'.tasks[k].status == s.tasks[k].status
  {
  }

  lemma ProcessedOutcomeOk(s: State, id: Uuid, s': State, k: Uuid)
    requires Stepping(s, id, s') && Explained(s.tasks, s.past.alone) && k in s.tasks
    ensures k in s'.tasks && OutcomeOk(s'.tasks, s.past.alone, k)
  {
    ProcessedFields(s, id, s', k);
    forall d | d in s.tasks[k].dependsOn && d in s.tasks
      ensures d in s'.tasks && (s.tasks[d].status.IsDone() ==> s'.tasks[d].status == s.tasks[d].status)
    {
      ProcessedFields(s, id, s', d);
    }
    if k == id && s.tasks[id].IsCancelling() {
      CancelledWithReason(s, id, s');
    } else {
      StillExplained(s.tasks, s'.tasks, s.past.alone, k);
    }
  }

  /** A task settled as cancelled has a failed dependency. */
  lemma CancelledWithReason(s: State, id: Uuid, s': State)
    requires Stepping(s, id, s') && s.tasks[id].IsCancelling() && id in s'.tasks
    requires s'.tasks[id].dependsOn == s.tasks[id].dependsOn && s'.tasks[id].status == Cancelled
    requires forall d :: d in s.tasks[id].dependsOn && d in s.tasks ==>
      d in s'.tasks && (s.tasks[d].status.IsDone() ==> s'.tasks[d].status == s.tasks[d].status)
    ensures OutcomeOk(s'.tasks, s.past.alone, id)
  {
    assert TaskOk(s, id);
    var u := s.tasks[id];
    var d :| d in u.dependsOn && d !in u.live && d in s.tasks && s.tasks[d].status.IsFailed();
    assert FailedDependency(s'.tasks, s'.tasks[id]);
  }

  lemma StillExplained(before: map<Uuid, Task>, after: map<Uuid, Task>, alone: set<Uuid>, k: Uuid)
    requires Explained(before, alone) && k in before && k in after
    requires after[k].dependsOn == before[k].dependsOn && after[k].status == before[k].status
    requires forall d :: d in before[k].dependsOn && d in before ==>
      d in after && (before[d].status.IsDone() ==> after[d].status == before[d].status)
    ensures OutcomeOk(after, alone, k)
  {
    assert OutcomeOk(before, alone, k);
    if FailedDependency(before, before[k]) {
      var d :| d in before[k].dependsOn && d in before && before[d].status.IsFailed();
      assert FailedDependency(after, after[k]);
    }
  }

  lemma ReturnKeepsOutcome(s: State, id: Uuid)
    requires Tidy(s) && Explained(s.tasks, s.past.alone) && CanReturn(s, id)
    ensures Explained(ProcessTask(s, id).tasks, ProcessTask(s, id).past.alone)
  {
    ProcessTaskStep(s, id);
    if CanProcess(s, id) {
      ProcessKeepsOutcome(s, id);
    }
  }

  lemma ProcessKeepsOutcome(s: State, id: Uuid)
    requires Tidy(s) && Explained(s.tasks, s.past.alone) && CanProcess(s, id)
    ensures Explained(ProcessTask(s, id).tasks, ProcessTask(s, id).past.alone)
  {
    ProcessTaskStep(s, id);
    var s' := ProcessTask(s, id);
    forall k | k in s'.tasks
      ensures OutcomeOk(s'.tasks, s'.past.alone, k)
    {
      ProcessedOutcomeOk(s, id, s', k);
    }
  }

  lemma {:induction false} ReachableOutcome(run: seq<Event>)
    requires IsRun(run) && IsCarefulRun(run)
    ensures Inv(After(run)) && Explained(After(run).tasks, After(run).past.alone)
  {
    ReachableInv(run);
    if run == [] {
    } else {
      var s := After(run[..|run| - 1]);
      ReachableOutcome(run[..|run| - 1]);
      match run[|run| - 1] {
        case Add(jobId, members, newTasks, alone) =>
          if jobId !in s.jobs {
            AddKeepsOutcome(s, jobId, members, newTasks, alone);
          }
        case Work(id, status) => WorkKeepsOutcome(s, id, status);
        case Process(id) => ReturnKeepsOutcome(s, id);
      }
    }
  }

  // ---------- The closure ----------

  /** A walk from a task along its dependencies. */
  ghost predicate IsPath(tasks: map<Uuid, Task>, path: seq<Uuid>) {
    && path != []
    && (forall i :: 0 <= i < |path| ==> path[i] in tasks)
    && (forall i :: 0 <= i < |path| - 1 ==> path[i + 1] in tasks[path[i]].dependsOn)
  }

  /** The task is in the set, or depends on a task of the set through any number of steps. */
  ghost predicate Reaches(tasks: map<Uuid, Task>, id: Uuid, goal: set<Uuid>) {
    exists path :: IsPath(tasks, path) && path[0] == id && path[|path| - 1] in goal
  }

  lemma {:induction false} FailureSpreads(tasks: map<Uuid, Task>, alone: set<Uuid>, path: seq<Uuid>)
    requires Explained(tasks, alone) && IsPath(tasks, path) && path[|path| - 1] in alone
    requires forall i :: 0 <= i < |path| ==> tasks[path[i]].status.IsDone()
    ensures tasks[path[0]].status.IsFailed()
  {
    assert OutcomeOk(tasks, alone, path[0]);
    if |path| == 1 {
    } else {
      var rest := path[1..];
      assert forall i :: 0 <= i < |rest| ==> rest[i] == path[i + 1];
      FailureSpreads(tasks, alone, rest);
      assert path[1] in tasks[path[0]].dependsOn;
    }
  }

  lemma FailureStep(tasks: map<Uuid, Task>, alone: set<Uuid>, x: Uuid)
    requires FailuresExplained(tasks, alone) && x in tasks && tasks[x].status.IsFailed()
    requires forall d ::
      d in tasks[x].dependsOn && d in tasks && tasks[d].status.IsFailed() ==> Reaches(tasks, d, alone)
    ensures Reaches(tasks, x, alone)
  {
    assert FailureOk(tasks, alone, x);
    if x in alone {
      assert IsPath(tasks, [x]) && [x][|[x]| - 1] in alone;
    } else {
      var d :| d in tasks[x].dependsOn && d in tasks && tasks[d].status.IsFailed();
      var path :| IsPath(tasks, path) && path[0] == d && path[|path| - 1] in alone;
      var longer := [x] + path;
      assert IsPath(tasks, longer) && longer[|longer| - 1] == path[|path| - 1];
    }
  }

  lemma ExplainedFailures(tasks: map<Uuid, Task>, alone: set<Uuid>)
    requires Explained(tasks, alone)
    ensures FailuresExplained(tasks, alone)
  {
    forall id | id in tasks
      ensures FailureOk(tasks, alone, id)
    {
      assert OutcomeOk(tasks, alone, id);
    }
  }

  lemma FailureComesFrom(tasks: map<Uuid, Task>, alone: set<Uuid>, id: Uuid)
    requires FailuresExplained(tasks, alone) && Acyclic(tasks) && id in tasks && tasks[id].status.IsFailed()
    ensures Reaches(tasks, id, alone)
  {
    var unexplained := set k | k in tasks && tasks[k].status.IsFailed() && !Reaches(tasks, k, alone);
    if id in unexplained {
      var x := RootOf(tasks, unexplained);
      FailureStep(tasks, alone, x);
    }
  }

  /** Dependencies stay within the job. */
  lemma {:induction false} PathStaysInJob(s: State, path: seq<Uuid>, i: nat)
    requires Tidy(s) && IsPath(s.tasks, path) && i < |path|
    ensures s.tasks[path[i]].jobId == s.tasks[path[0]].jobId
  {
    if i == 0 {
    } else {
      PathStaysInJob(s, path, i - 1);
      assert TaskOk(s, path[i - 1]);
      assert path[(i - 1) + 1] in s.tasks[path[i - 1]].dependsOn;
    }
  }

  /**
   * Once a job is over, its tasks that failed or were cancelled are exactly those that reach, through
   * their dependencies, a task that failed on its own; every other task completed. The order in which
   * the tasks came back plays no part.
   */
  lemma OutcomeIsTheClosure(run: seq<Event>, id: Uuid)
    requires IsRun(run) && IsCarefulRun(run) && id in After(run).tasks
    requires After(run).tasks[id].jobId !in After(run).jobs
    ensures var s := After(run);
      s.tasks[id].status == Completed || s.tasks[id].status == Failed || s.tasks[id].status == Cancelled
    ensures var s := After(run);
      s.tasks[id].status == Completed <==> !Reaches(s.tasks, id, s.past.alone)
  {
    ReachableOutcome(run);
    var s := After(run);
    assert TaskOk(s, id);
    ExplainedFailures(s.tasks, s.past.alone);
    if s.tasks[id].status.IsFailed() {
      FailureComesFrom(s.tasks, s.past.alone, id);
    }
    if Reaches(s.tasks, id, s.past.alone) {
      var path :| IsPath(s.tasks, path) && path[0] == id && path[|path| - 1] in s.past.alone;
      forall i | 0 <= i < |path|
        ensures s.tasks[path[i]].status.IsDone()
      {
        PathStaysInJob(s, path, i);
        assert TaskOk(s, path[i]);
      }
      FailureSpreads(s.tasks, s.past.alone, path);
    }
  }

  // ---------- Recovery ----------

  /** The row of a task, as it is read back: the dependency state is not stored. */
  function Row(t: Task): Task {
    t.(live := t.dependsOn, cancelling := false, cancelBy := 0)
  }

  /** Some listing of the rows of a held job. */
  ghost predicate RowsOf(s: State, jobId: Uuid, rows: seq<Task>) {
    && jobId in s.jobs
    && (forall i, j :: 0 <= i < j < |rows| ==> rows[i].id != rows[j].id)
    && (forall i :: 0 <= i < |rows| ==>
          rows[i].id in s.jobs[jobId] && rows[i].id in s.tasks && rows[i] == Row(s.tasks[rows[i].id]))
    && (forall m :: m in s.jobs[jobId] ==> exists i :: 0 <= i < |rows| && rows[i].id == m)
  }

  lemma ListedRow(s: State, jobId: Uuid, rows: seq<Task>, m: Uuid)
    requires Tidy(s) && RowsOf(s, jobId, rows) && m in s.jobs[jobId]
    ensures m in s.tasks
    ensures m in DoneIn(rows) <==> s.tasks[m].status.IsDone()
    ensures m in FailedIn(rows) <==> s.tasks[m].status.IsFailed()
  {
    var i :| 0 <= i < |rows| && rows[i].id == m;
    assert rows[i] in rows;
  }

  lemma ListedRowsAreFresh(s: State, jobId: Uuid, rows: seq<Task>)
    requires Tidy(s) && RowsOf(s, jobId, rows)
    ensures FreshRows(rows)
  {
    forall i | 0 <= i < |rows|
      ensures rows[i].IsFresh() && NoDuplicates(rows[i].dependsOn)
    {
      assert TaskOk(s, rows[i].id);
    }
  }

  ghost predicate AllAnnounced(s: State, jobId: Uuid)
    requires jobId in s.jobs
  {
    forall m :: m in s.jobs[jobId] && m in s.tasks && s.tasks[m].status.IsDone() ==> m in s.past.processed
  }

  lemma {:induction false} RecoveredTaskAgrees(s: State, jobId: Uuid, rows: seq<Task>, k: nat)
    requires Tidy(s) && RowsOf(s, jobId, rows) && k < |rows| && !rows[k].status.IsDone()
    requires AllAnnounced(s, jobId)
    ensures Replay(rows, |rows|)[k].(cancelBy := 0) == s.tasks[rows[k].id].(cancelBy := 0)
  {
    ListedRowsAreFresh(s, jobId, rows);
    RecoveryClosedForm(rows, k);
    var t := s.tasks[rows[k].id];
    assert TaskOk(s, rows[k].id) && JobOk(s, jobId);
    forall d | d in t.dependsOn
      ensures d in DoneIn(rows) <==> d in s.past.processed
      ensures d in FailedIn(rows) <==> s.tasks[d].status.IsFailed()
    {
      assert d in s.jobs[jobId];
      ListedRow(s, jobId, rows, d);
      assert TaskOk(s, d);
    }
    WithoutSame(t.dependsOn, DoneIn(rows), s.past.processed);
    WithoutMembers(t.dependsOn, s.past.processed);
  }

  /**
   * Crash while every finished task of a job has been announced: whatever order the rows are listed in,
   * recovery rebuilds the live state of each unfinished task (but for cancelBy), and dispatches exactly
   * the unfinished tasks that were in flight, and those that had got stuck.
   */
  lemma RecoveryAgreesWithLiveRun(run: seq<Event>, jobId: Uuid, rows: seq<Task>, k: nat)
    requires IsRun(run) && RowsOf(After(run), jobId, rows) && AllAnnounced(After(run), jobId) && k < |rows|
    ensures !rows[k].status.IsDone() ==>
      Replay(rows, |rows|)[k].(cancelBy := 0) == After(run).tasks[rows[k].id].(cancelBy := 0)
    ensures Replay(rows, |rows|)[k].IsReadyToRun() <==>
      !rows[k].status.IsDone() && (rows[k].id in After(run).inFlight || Stuck(After(run), rows[k].id))
  {
    ReachableInv(run);
    var s := After(run);
    if !rows[k].status.IsDone() {
      RecoveredTaskAgrees(s, jobId, rows, k);
      assert TaskOk(s, rows[k].id);
    }
  }

  /** Announcing a finished task changes no status, and nothing of what a row stores. */
  lemma AnnouncingKeepsRow(s: State, m: Uuid, x: Uuid)
    requires CanProcess(s, m) && s.tasks[m].status.IsDone() && x in s.tasks
    ensures x in ProcessTask(s, m).tasks
    ensures ProcessTask(s, m).tasks[x].status == s.tasks[x].status && Row(ProcessTask(s, m).tasks[x]) == Row(s.tasks[x])
  {
    ProcessTasks(s, m);
  }

  /** So a job that still has an unfinished task stays, with the same rows. */
  lemma AnnouncingKeepsRows(s: State, s': State, jobId: Uuid, rows: seq<Task>, k: nat)
    requires Inv(s) && RowsOf(s, jobId, rows) && k < |rows| && !rows[k].status.IsDone()
    requires forall x :: x in s.tasks ==>
      x in s'.tasks && s'.tasks[x].status == s.tasks[x].status && Row(s'.tasks[x]) == Row(s.tasks[x])
    requires jobId in s'.jobs <==> !Finished(s'.tasks, s.jobs[jobId])
    requires jobId in s'.jobs ==> s'.jobs[jobId] == s.jobs[jobId]
    ensures RowsOf(s', jobId, rows) && s'.jobs[jobId] == s.jobs[jobId]
  {
    assert rows[k].id in s.jobs[jobId] && !s'.tasks[rows[k].id].status.IsDone();
  }

  /** The event announces a finished task of the job. */
  ghost predicate Announces(s: State, jobId: Uuid, e: Event) {
    && e.Process? && jobId in s.jobs && e.id in s.jobs[jobId]
    && e.id in s.tasks && s.tasks[e.id].status.IsDone()
  }

  ghost predicate AllAnnounce(s: State, jobId: Uuid, events: seq<Event>) {
    forall i :: 0 <= i < |events| ==> Announces(s, jobId, events[i])
  }

  /** One such announcement, as long as there is one to make. */
  lemma AnnounceOne(run: seq<Event>, jobId: Uuid, rows: seq<Task>, k: nat) returns (e: Event)
    requires IsRun(run) && RowsOf(After(run), jobId, rows) && k < |rows| && !rows[k].status.IsDone()
    requires !AllAnnounced(After(run), jobId)
    ensures Announces(After(run), jobId, e) && IsRun(run + [e]) && RowsOf(After(run + [e]), jobId, rows)
    ensures JobProgress.Measure(After(run + [e])) < JobProgress.Measure(After(run))
    ensures forall x {:trigger Announces(After(run), jobId, x)} ::
      Announces(After(run + [e]), jobId, x) ==> Announces(After(run), jobId, x)
  {
    ReachableInv(run);
    var s := After(run);
    var m :| m in s.jobs[jobId] && m in s.tasks && s.tasks[m].status.IsDone() && m !in s.past.processed;
    assert TaskOk(s, m);
    e := Process(m);
    RunOneMore(run, e);
    JobProgress.ProcessDecreases(s, m);
    ProcessTaskStep(s, m);
    forall x | x in s.tasks
      ensures x in ProcessTask(s, m).tasks && ProcessTask(s, m).tasks[x].status == s.tasks[x].status
      ensures Row(ProcessTask(s, m).tasks[x]) == Row(s.tasks[x])
    {
      AnnouncingKeepsRow(s, m, x);
    }
    assert JobOk(s, jobId);
    AnnouncingKeepsRows(s, ProcessTask(s, m), jobId, rows, k);
  }

  lemma AppendFirst(run: seq<Event>, e: Event, rest: seq<Event>)
    ensures run + ([e] + rest) == run + [e] + rest
  {
  }

  /** The finished tasks of a job that have not been announced can all be announced, and nothing else need happen. */
  lemma {:induction false} AnnouncePending(run: seq<Event>, jobId: Uuid, rows: seq<Task>, k: nat)
    returns (pending: seq<Event>)
    requires IsRun(run) && RowsOf(After(run), jobId, rows) && k < |rows| && !rows[k].status.IsDone()
    ensures AllAnnounce(After(run), jobId, pending)
    ensures IsRun(run + pending) && RowsOf(After(run + pending), jobId, rows)
    ensures AllAnnounced(After(run + pending), jobId)
    decreases JobProgress.Measure(After(run))
  {
    if AllAnnounced(After(run), jobId) {
      pending := [];
      assert run + pending == run;
    } else {
      var e := AnnounceOne(run, jobId, rows, k);
      var rest := AnnouncePending(run + [e], jobId, rows, k);
      pending := [e] + rest;
      AppendFirst(run, e, rest);
    }
  }

  /**
   * Crash at any moment of any run: recovery from the rows, in whatever order, rebuilds what the live job would have
   * come to had the handler first announced the finished tasks that were still on their way to it.
   */
  lemma RecoveryAgreesAfterAnyCrash(run: seq<Event>, jobId: Uuid, rows: seq<Task>, k: nat)
    returns (pending: seq<Event>)
    requires IsRun(run) && RowsOf(After(run), jobId, rows) && k < |rows| && !rows[k].status.IsDone()
    ensures AllAnnounce(After(run), jobId, pending)
    ensures IsRun(run + pending) && rows[k].id in After(run + pending).tasks
    ensures var live := After(run + pending);
      && Replay(rows, |rows|)[k].(cancelBy := 0) == live.tasks[rows[k].id].(cancelBy := 0)
      && (Replay(rows, |rows|)[k].IsReadyToRun() <==> rows[k].id in live.inFlight || Stuck(live, rows[k].id))
  {
    pending := AnnouncePending(run, jobId, rows, k);
    RecoveryAgreesWithLiveRun(run + pending, jobId, rows, k);
  }
}
