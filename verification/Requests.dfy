/**
 * The jobs that requests and recovery hand to the handler: the chain built by
 * internal/handler/grpc_agent/job_create_database.go, and the rows of a job read back.
 */
module Requests {
  import opened Sequences
  import opened Tasks
  import opened Jobs
  import opened JobHandling

  datatype Action = CreateUser | Create | Backup | Restore | WaitReady

  /** The actions of a create-database request, in order. */
  function Steps(migrateFrom: string, backupPath: string): seq<Action> {
    [CreateUser, Create]
    + (if migrateFrom != "" then [Backup] else [])
    + (if migrateFrom != "" || backupPath != "" then [Restore] else [])
    + [WaitReady]
  }

  datatype NewTask = NewTask(action: Action, task: Task)

  /** Every task is pending and depends on exactly the one before it. */
  ghost predicate IsChain(jobId: Uuid, tasks: seq<Task>) {
    DistinctIds(tasks) && forall i :: 0 <= i < |tasks| ==> IsLink(jobId, tasks, i)
  }

  ghost predicate IsLink(jobId: Uuid, tasks: seq<Task>, i: nat)
    requires i < |tasks|
  {
    && tasks[i].jobId == jobId && tasks[i].status == Pending && tasks[i].IsFresh()
    && tasks[i].dependsOn == if i == 0 then [] else [tasks[i - 1].id]
  }

  ghost predicate DistinctIds(tasks: seq<Task>) {
    forall i, j :: 0 <= i < j < |tasks| ==> tasks[i].id != tasks[j].id
  }

  function TasksOf(steps: seq<NewTask>): seq<Task> {
    seq(|steps|, i requires 0 <= i < |steps| => steps[i].task)
  }

  function ActionsOf(steps: seq<NewTask>): seq<Action> {
    seq(|steps|, i requires 0 <= i < |steps| => steps[i].action)
  }

  /** The action is taken by the step i and by no other. */
  ghost predicate OnlyAt(job: seq<NewTask>, action: Action, i: int) {
    0 <= i < |job| && forall k :: 0 <= k < |job| ==> (job[k].action == action <==> k == i)
  }

  ghost predicate Without(job: seq<NewTask>, action: Action) {
    forall k :: 0 <= k < |job| ==> job[k].action != action
  }

  /** The step i waits for the step d and for nothing else; for nothing at all if d is negative. */
  ghost predicate DependsOn(job: seq<NewTask>, i: int, d: int) {
    0 <= i < |job| && d < |job| && job[i].task.dependsOn == if d < 0 then [] else [job[d].task.id]
  }

  /**
   * First the user and the database, last the wait; a backup exactly when the database migrates, a restore exactly when
   * there is something to restore; each step waits for the one that makes what it needs.
   */
  ghost predicate AsPlanned(job: seq<NewTask>, migrates: bool, restores: bool) {
    && |job| == 3 + (if migrates then 1 else 0) + (if restores then 1 else 0)
    && OnlyAt(job, CreateUser, 0) && DependsOn(job, 0, -1)
    && OnlyAt(job, Create, 1) && DependsOn(job, 1, 0)
    && (if migrates then OnlyAt(job, Backup, 2) && DependsOn(job, 2, 1) else Without(job, Backup))
    && (if restores then OnlyAt(job, Restore, |job| - 2) && DependsOn(job, |job| - 2, if migrates then 2 else 1)
        else Without(job, Restore))
    && OnlyAt(job, WaitReady, |job| - 1) && DependsOn(job, |job| - 1, if restores then |job| - 2 else 1)
  }

  /** A chain waits step for step, so what is left to see is where each action stands. */
  lemma StepsAsPlanned(jobId: Uuid, migrates: bool, restores: bool, job: seq<NewTask>)
    requires IsChain(jobId, TasksOf(job)) && (migrates ==> restores)
    requires ActionsOf(job) == [CreateUser, Create] + (if migrates then [Backup] else [])
                               + (if restores then [Restore] else []) + [WaitReady]
    ensures AsPlanned(job, migrates, restores)
  {
    var actions := ActionsOf(job);
    assert |actions| == |job| && forall k :: 0 <= k < |job| ==> job[k].action == actions[k];
    LinkDepends(jobId, job, 0);
    LinkDepends(jobId, job, 1);
    LinkDepends(jobId, job, 2);
    LinkDepends(jobId, job, |job| - 2);
    LinkDepends(jobId, job, |job| - 1);
  }

  lemma LinkDepends(jobId: Uuid, job: seq<NewTask>, i: nat)
    requires IsChain(jobId, TasksOf(job)) && i < |job|
    ensures DependsOn(job, i, i - 1)
  {
    assert IsLink(jobId, TasksOf(job), i);
  }

  /** Appends the row for one action, depending on the row before it; id is what the insert returns. */
  method AddStep(job: seq<NewTask>, jobId: Uuid, action: Action, id: Uuid) returns (longer: seq<NewTask>)
    requires IsChain(jobId, TasksOf(job)) && forall i :: 0 <= i < |job| ==> job[i].task.id != id
    ensures IsChain(jobId, TasksOf(longer)) && ActionsOf(longer) == ActionsOf(job) + [action]
    ensures |longer| == |job| + 1 && longer[|job|].task.id == id && longer[..|job|] == job
  {
    var dependsOn := if |job| == 0 then [] else [job[|job| - 1].task.id];
    longer := job + [NewTask(action, Task(id, jobId, dependsOn, Pending, dependsOn, false, 0))];
    forall i | 0 <= i < |longer|
      ensures IsLink(jobId, TasksOf(longer), i)
    {
      if i < |job| {
        assert IsLink(jobId, TasksOf(job), i);
      }
    }
    assert TasksOf(longer)[..|job|] == TasksOf(job);
    assert forall i :: 0 <= i < |job| ==> TasksOf(job)[i].id == job[i].task.id;
  }

  /** One mutable parameter record is reused for every row; ids are what the inserts return. */
  method BuildCreateDatabaseJob(jobId: Uuid, migrateFrom: string, backupPath: string, ids: seq<Uuid>)
    returns (job: seq<NewTask>)
    requires |ids| >= 5 && NoDuplicates(ids)
    ensures ActionsOf(job) == Steps(migrateFrom, backupPath)
    ensures IsChain(jobId, TasksOf(job))
    ensures AsPlanned(job, migrateFrom != "", migrateFrom != "" || backupPath != "")
  {
    assert IsChain(jobId, TasksOf([]));
    job := AddStep([], jobId, CreateUser, ids[0]);
    job := AddStep(job, jobId, Create, ids[1]);
    if migrateFrom != "" {
      job := AddStep(job, jobId, Backup, ids[2]);
    }
    if migrateFrom != "" || backupPath != "" {
      job := AddStep(job, jobId, Restore, ids[3]);
    }
    job := AddStep(job, jobId, WaitReady, ids[4]);
    StepsAsPlanned(jobId, migrateFrom != "", migrateFrom != "" || backupPath != "", job);
  }

  ghost predicate Lists(tasks: seq<Task>, index: map<Uuid, Task>) {
    && (forall i :: 0 <= i < |tasks| ==> tasks[i].id in index && index[tasks[i].id] == tasks[i])
    && (forall id :: id in index ==> exists i :: 0 <= i < |tasks| && tasks[i].id == id)
  }

  function IdsOf(tasks: seq<Task>): seq<Uuid> {
    seq(|tasks|, i requires 0 <= i < |tasks| => tasks[i].id)
  }

  lemma ListedIds(tasks: seq<Task>, index: map<Uuid, Task>)
    requires DistinctIds(tasks) && Lists(tasks, index)
    ensures NoDuplicates(IdsOf(tasks)) && forall id :: id in IdsOf(tasks) <==> id in index
  {
    forall id | id in index
      ensures id in IdsOf(tasks)
    {
      var i :| 0 <= i < |tasks| && tasks[i].id == id;
      assert IdsOf(tasks)[i] == id;
    }
  }

  lemma ListedOutcomes(tasks: seq<Task>, index: map<Uuid, Task>)
    requires DistinctIds(tasks) && Lists(tasks, index)
    ensures DoneOf(index) == DoneIn(tasks) && FailedOf(index) == FailedIn(tasks)
  {
    forall id | id in index
      ensures id in DoneIn(tasks) <==> index[id].status.IsDone()
      ensures id in FailedIn(tasks) <==> index[id].status.IsFailed()
    {
      var i :| 0 <= i < |tasks| && tasks[i].id == id;
      assert tasks[i] in tasks;
    }
  }

  lemma LinkOf(jobId: Uuid, tasks: seq<Task>, index: map<Uuid, Task>, id: Uuid) returns (i: nat)
    requires IsChain(jobId, tasks) && Lists(tasks, index) && id in index
    ensures i < |tasks| && index[id] == tasks[i] && tasks[i].id == id && IsLink(jobId, tasks, i)
    ensures forall d :: d in index[id].dependsOn ==> i > 0 && d == tasks[i - 1].id && d in index
    ensures |index[id].dependsOn| <= 1
  {
    i :| 0 <= i < |tasks| && tasks[i].id == id;
    assert IsLink(jobId, tasks, i);
  }

  /** A chain can be added: it is acyclic, and every task has one dependency at most. */
  lemma ChainIsAcyclic(jobId: Uuid, tasks: seq<Task>, index: map<Uuid, Task>)
    requires IsChain(jobId, tasks) && Lists(tasks, index)
    ensures Acyclic(index)
    ensures forall id :: id in index ==> |index[id].dependsOn| <= 1
  {
    forall group: set<Uuid> | group != {} && group <= index.Keys
      ensures HasRoot(index, group)
    {
      ChainHasRoot(jobId, tasks, index, group);
    }
    forall id | id in index
      ensures |index[id].dependsOn| <= 1
    {
      var _ := LinkOf(jobId, tasks, index, id);
    }
  }

  lemma ChainHasRoot(jobId: Uuid, tasks: seq<Task>, index: map<Uuid, Task>, group: set<Uuid>)
    requires IsChain(jobId, tasks) && Lists(tasks, index) && group != {} && group <= index.Keys
    ensures HasRoot(index, group)
  {
    var id :| id in group;
    var i := LinkOf(jobId, tasks, index, id);
    var first := FirstIn(tasks, group, i);
    var j := LinkOf(jobId, tasks, index, tasks[first].id);
    assert j == first;
  }

  lemma {:induction false} FirstIn(tasks: seq<Task>, group: set<Uuid>, i: nat) returns (first: nat)
    requires i < |tasks| && tasks[i].id in group
    ensures first <= i && tasks[first].id in group
    ensures forall j :: 0 <= j < first ==> tasks[j].id !in group
  {
    if k :| 0 <= k < i && tasks[k].id in group {
      first := FirstIn(tasks, group, k);
    } else {
      first := i;
    }
  }

  lemma ChainCanBeAdded(s: State, jobId: Uuid, tasks: seq<Task>, index: map<Uuid, Task>)
    requires IsChain(jobId, tasks) && tasks != [] && Lists(tasks, index)
    requires forall id :: id in index ==> id !in s.tasks
    ensures Enabled(s, Add(jobId, IdsOf(tasks), index, {})) && !Finished(index, IdsOf(tasks))
  {
    ListedIds(tasks, index);
    ChainIsAcyclic(jobId, tasks, index);
    assert IdsOf(tasks)[0] == tasks[0].id && IsLink(jobId, tasks, 0);
    forall id | id in index
      ensures !index[id].status.IsDone()
    {
      var _ := LinkOf(jobId, tasks, index, id);
    }
    assert DoneOf(index) == {} == FailedOf(index);
    forall id | id in index
      ensures NewTaskOk(jobId, id, index)
    {
      var i := LinkOf(jobId, tasks, index, id);
      WithoutNothing(tasks[i].dependsOn, {});
    }
  }

  /** Rows as the job's tasks were written: of one job, depending within it, without cycles. */
  ghost predicate RowsOfJob(jobId: Uuid, rows: seq<Task>) {
    && FreshRows(rows)
    && (forall i :: 0 <= i < |rows| ==> rows[i].jobId == jobId)
    && (forall i, d :: 0 <= i < |rows| && d in rows[i].dependsOn ==> exists j :: 0 <= j < |rows| && rows[j].id == d)
  }

  /**
   * What recovery rebuilds from the rows of a job, in whatever state each task was left, the handler
   * can take; and it has something to do, because recovery drops jobs whose tasks are all done.
   */
  lemma {:induction false} RecoveredJobCanBeAdded(s: State, jobId: Uuid, rows: seq<Task>, index: map<Uuid, Task>)
    requires RowsOfJob(jobId, rows) && !AllDone(rows) && Lists(Replay(rows, |rows|), index) && Acyclic(index)
    requires forall id :: id in index ==> id !in s.tasks
    ensures Enabled(s, Add(jobId, IdsOf(rows), index, {})) && !Finished(index, IdsOf(rows))
  {
    var ts := Replay(rows, |rows|);
    assert IdsOf(ts) == IdsOf(rows);
    ListedIds(ts, index);
    forall id | id in index
      ensures NewTaskOk(jobId, id, index)
    {
      var i :| 0 <= i < |ts| && ts[i].id == id;
      RecoveredTaskOk(jobId, rows, index, i);
    }
    var k :| 0 <= k < |rows| && !rows[k].status.IsDone();
    assert IdsOf(rows)[k] == ts[k].id && index[ts[k].id] == ts[k];
  }

  lemma {:induction false} RecoveredTaskOk(jobId: Uuid, rows: seq<Task>, index: map<Uuid, Task>, i: nat)
    requires RowsOfJob(jobId, rows) && Lists(Replay(rows, |rows|), index) && i < |rows|
    ensures rows[i].id in index && NewTaskOk(jobId, rows[i].id, index)
  {
    var ts := Replay(rows, |rows|);
    RecoveryClosedForm(rows, i);
    ListedOutcomes(ts, index);
    SameOutcomes(rows, ts);
    assert index[ts[i].id] == ts[i];
    forall d | d in ts[i].dependsOn
      ensures d in index
    {
      var j :| 0 <= j < |rows| && rows[j].id == d;
      assert ts[j].id == d;
    }
  }

  lemma SameOutcomes(rows: seq<Task>, ts: seq<Task>)
    requires |rows| == |ts|
    requires forall i :: 0 <= i < |rows| ==> ts[i].status == rows[i].status && ts[i].id == rows[i].id
    ensures DoneIn(ts) == DoneIn(rows) && FailedIn(ts) == FailedIn(rows)
  {
    forall id
      ensures id in DoneIn(ts) <==> id in DoneIn(rows)
      ensures id in FailedIn(ts) <==> id in FailedIn(rows)
    {
      assert forall i :: 0 <= i < |rows| ==> rows[i] in rows && ts[i] in ts;
    }
  }
}
