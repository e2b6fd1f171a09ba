/** The handler object of internal/job/job_handler.go: each method takes the step of the state machine. */
module JobHandlers {
  import opened Sequences
  import opened Tasks
  import opened Jobs
  import JobHandling

  datatype HandleResult = Ok | ErrJobAlreadyExist | ErrJobNotFound | ErrNotSupportedTaskStatus

  function IdsOf(tasks: seq<DbTask>): seq<Uuid> {
    seq(|tasks|, i requires 0 <= i < |tasks| => tasks[i].id)
  }

  /** The tasks of a job by id. */
  ghost predicate Indexes(index: map<Uuid, DbTask>, tasks: seq<DbTask>) {
    forall i :: 0 <= i < |tasks| ==> tasks[i].id in index && index[tasks[i].id] == tasks[i]
  }

  /** A job as the handler keeps it: distinct tasks, all of them registered. */
  ghost predicate Filed(index: map<Uuid, DbTask>, j: Uuid, job: BaseJob) {
    job.id == j && NoDuplicates(IdsOf(job.tasks)) && Indexes(index, job.tasks)
  }

  lemma StillFiled(a: map<Uuid, DbTask>, b: map<Uuid, DbTask>, j: Uuid, job: BaseJob)
    requires Filed(a, j, job) && a.Keys !! b.Keys
    ensures Filed(a + b, j, job)
  {
  }

  ghost function Snapshot(index: map<Uuid, DbTask>): map<Uuid, Task>
    reads index.Values
  {
    map id | id in index :: index[id].Value()
  }

  twostate lemma SameSnapshot(index: map<Uuid, DbTask>)
    requires forall id :: id in index ==> unchanged(index[id])
    ensures Snapshot(index) == old(Snapshot(index))
  {
  }

  ghost predicate Selects(ids: seq<Uuid>, flags: seq<bool>, chosen: set<Uuid>)
    requires |ids| == |flags|
  {
    && (forall i :: 0 <= i < |ids| && flags[i] ==> ids[i] in chosen)
    && (forall id :: id in chosen ==> exists i :: 0 <= i < |ids| && flags[i] && ids[i] == id)
  }

  lemma SelectsBefore(ids: seq<Uuid>, flags: seq<bool>, chosen: set<Uuid>)
    requires |ids| == |flags| > 0 && NoDuplicates(ids) && Selects(ids, flags, chosen)
    ensures var n := |ids| - 1;
      && NoDuplicates(ids[..n]) && Selects(ids[..n], flags[..n], chosen - {ids[n]})
      && (ids[n] in chosen <==> flags[n])
  {
    var n := |ids| - 1;
    forall id | id in chosen - {ids[n]}
      ensures exists i :: 0 <= i < n && flags[..n][i] && ids[..n][i] == id
    {
      var i :| 0 <= i < |ids| && flags[i] && ids[i] == id;
      assert flags[..n][i] && ids[..n][i] == id;
    }
  }

  lemma {:induction false} ChosenOnce(ids: seq<Uuid>, flags: seq<bool>, chosen: set<Uuid>)
    requires |ids| == |flags| && NoDuplicates(ids) && Selects(ids, flags, chosen)
    ensures multiset(Chosen(ids, flags)) == multiset(chosen)
  {
    if ids == [] {
      assert chosen == {};
    } else {
      var n := |ids| - 1;
      SelectsBefore(ids, flags, chosen);
      ChosenOnce(ids[..n], flags[..n], chosen - {ids[n]});
      if flags[n] {
        assert multiset(chosen) == multiset(chosen - {ids[n]}) + multiset{ids[n]};
      } else {
        assert chosen - {ids[n]} == chosen;
      }
    }
  }

  lemma {:induction false} IdsOfChosen(tasks: seq<DbTask>, flags: seq<bool>)
    requires |tasks| == |flags|
    ensures IdsOf(Chosen(tasks, flags)) == Chosen(IdsOf(tasks), flags)
  {
    if tasks == [] {
    } else {
      var n := |tasks| - 1;
      IdsOfChosen(tasks[..n], flags[..n]);
      assert IdsOf(tasks)[..n] == IdsOf(tasks[..n]);
    }
  }

  class JobHandler {
    var jobs: map<Uuid, BaseJob>
    /** What readyToRunJobProducer was sent and has not come back. */
    var inFlight: multiset<Uuid>
    ghost var registry: map<Uuid, DbTask>
    ghost var past: JobHandling.History

    constructor ()
      ensures Valid() && Model() == JobHandling.INITIAL && registry == map[]
    {
      jobs, inFlight, registry := map[], multiset{}, map[];
      past := JobHandling.INITIAL.past;
    }

    ghost predicate Valid()
      reads this`registry, this`jobs
    {
      && (forall id :: id in registry ==> registry[id].id == id)
      && (forall j {:trigger Filed(registry, j, jobs[j])} :: j in jobs ==> Filed(registry, j, jobs[j]))
    }

    ghost function TaskLists(): map<Uuid, seq<Uuid>>
      reads this`jobs
    {
      map j | j in jobs :: IdsOf(jobs[j].tasks)
    }

    ghost function Model(): JobHandling.State
      reads this, registry.Values
    {
      JobHandling.State(Snapshot(registry), TaskLists(), inFlight, past)
    }

    method ReadyToRun(readyToRunTasks: seq<DbTask>)
      modifies this`inFlight, this`past
      ensures inFlight == old(inFlight) + multiset(IdsOf(readyToRunTasks))
      ensures past == old(past).(dispatched := old(past).dispatched + multiset(IdsOf(readyToRunTasks)))
      ensures Snapshot(registry) == old(Snapshot(registry)) && TaskLists() == old(TaskLists())
    {
      ghost var ids := IdsOf(readyToRunTasks);
      for i := 0 to |readyToRunTasks|
        invariant inFlight == old(inFlight) + multiset(ids[..i])
        invariant past == old(past).(dispatched := old(past).dispatched + multiset(ids[..i]))
        invariant Snapshot(registry) == old(Snapshot(registry)) && TaskLists() == old(TaskLists())
      {
        assert ids[..i + 1] == ids[..i] + [readyToRunTasks[i].id];
        inFlight := inFlight + multiset{readyToRunTasks[i].id};
        past := past.(dispatched := past.dispatched + multiset{readyToRunTasks[i].id});
      }
      assert ids[..|readyToRunTasks|] == ids;
    }

    method AddJob(job: BaseJob, ghost index: map<Uuid, DbTask>) returns (res: HandleResult)
      requires Valid()
      requires NoDuplicates(IdsOf(job.tasks)) && Indexes(index, job.tasks)
      requires forall id :: id in index <==> id in IdsOf(job.tasks)
      requires job.id !in jobs ==> forall id :: id in index ==> id !in registry
      modifies this
      ensures Valid()
      ensures Model() == JobHandling.AddJob(old(Model()), job.id, IdsOf(job.tasks), old(Snapshot(index)), {})
      ensures res == if job.id in old(jobs) then ErrJobAlreadyExist else Ok
    {
      if job.id in jobs {
        return ErrJobAlreadyExist;
      }
      ghost var s, newTasks := Model(), Snapshot(index);
      assert forall i :: 0 <= i < |job.tasks| ==> IdsOf(job.tasks)[i] == job.tasks[i].id;
      Keep(job, index, s, newTasks);
      var ready := job.ReadyToRun();
      ReadyOnce(job, index);
      ReadyToRun(ready);
      AddedModel(s, Model(), job.id, IdsOf(job.tasks), newTasks);
      return Ok;
    }

    static lemma AddedModel(s: JobHandling.State, s': JobHandling.State, j: Uuid, members: seq<Uuid>,
                            newTasks: map<Uuid, Task>)
      requires j !in s.jobs
      requires s'.tasks == s.tasks + newTasks && s'.jobs == s.jobs[j := members]
      requires s'.inFlight == s.inFlight + multiset(JobHandling.ReadyOf(newTasks))
      requires s'.past == JobHandling.Arrival(s.past, j, members, newTasks, {}).(
                            dispatched := s.past.dispatched + multiset(JobHandling.ReadyOf(newTasks)))
      ensures s' == JobHandling.AddJob(s, j, members, newTasks, {})
    {
    }

    /** addJob before anything is dispatched. */
    method Keep(job: BaseJob, ghost index: map<Uuid, DbTask>, ghost s: JobHandling.State,
                ghost newTasks: map<Uuid, Task>)
      requires Valid() && s == Model() && newTasks == Snapshot(index)
      requires NoDuplicates(IdsOf(job.tasks)) && Indexes(index, job.tasks)
      requires registry.Keys !! index.Keys
      requires forall id :: id in index ==> index[id].id == id
      modifies this`jobs, this`registry, this`past
      ensures Valid() && inFlight == s.inFlight
      ensures Snapshot(index) == newTasks && Snapshot(registry) == s.tasks + newTasks
      ensures TaskLists() == s.jobs[job.id := IdsOf(job.tasks)]
      ensures past == JobHandling.Arrival(s.past, job.id, IdsOf(job.tasks), newTasks, {})
    {
      File(job, index);
      past := JobHandling.Arrival(past, job.id, IdsOf(job.tasks), newTasks, {});
      SameSnapshot(index);
      SameSnapshot(old(registry));
      JoinedSnapshot(old(registry), index);
    }

    method File(job: BaseJob, ghost index: map<Uuid, DbTask>)
      requires Valid()
      requires NoDuplicates(IdsOf(job.tasks)) && Indexes(index, job.tasks)
      requires registry.Keys !! index.Keys
      requires forall id :: id in index ==> index[id].id == id
      modifies this`jobs, this`registry
      ensures Valid() && registry == old(registry) + index
      ensures jobs == old(jobs)[job.id := job]
      ensures TaskLists() == old(TaskLists())[job.id := IdsOf(job.tasks)]
    {
      AllFiled(jobs, registry, job, index, jobs[job.id := job]);
      jobs := jobs[job.id := job];
      registry := registry + index;
    }

    static lemma AllFiled(jobs: map<Uuid, BaseJob>, registry: map<Uuid, DbTask>, job: BaseJob, index: map<Uuid, DbTask>,
                          after: map<Uuid, BaseJob>)
      requires forall j {:trigger Filed(registry, j, jobs[j])} :: j in jobs ==> Filed(registry, j, jobs[j])
      requires NoDuplicates(IdsOf(job.tasks)) && Indexes(index, job.tasks) && registry.Keys !! index.Keys
      requires after == jobs[job.id := job]
      ensures forall j {:trigger Filed(registry + index, j, after[j])} ::
        j in after ==> Filed(registry + index, j, after[j])
    {
      forall j {:trigger Filed(registry + index, j, after[j])} | j in after
        ensures Filed(registry + index, j, after[j])
      {
        if j != job.id {
          assert after[j] == jobs[j];
          StillFiled(registry, index, j, jobs[j]);
        }
      }
    }

    lemma JoinedSnapshot(a: map<Uuid, DbTask>, b: map<Uuid, DbTask>)
      ensures Snapshot(a + b) == Snapshot(a) + Snapshot(b)
    {
    }

    lemma ReadyOnce(job: BaseJob, index: map<Uuid, DbTask>)
      requires NoDuplicates(IdsOf(job.tasks)) && Indexes(index, job.tasks)
      requires forall id :: id in index <==> id in IdsOf(job.tasks)
      ensures multiset(IdsOf(Chosen(job.tasks, Readiness(ValuesOf(job.tasks))))) ==
              multiset(JobHandling.ReadyOf(Snapshot(index)))
    {
      var ids, flags := IdsOf(job.tasks), Readiness(ValuesOf(job.tasks));
      var ready := JobHandling.ReadyOf(Snapshot(index));
      forall id | id in ready
        ensures exists i :: 0 <= i < |ids| && flags[i] && ids[i] == id
      {
        var i :| 0 <= i < |ids| && ids[i] == id;
        assert index[id] == job.tasks[i];
        assert flags[i];
      }
      ChosenOnce(ids, flags, ready);
      IdsOfChosen(job.tasks, flags);
    }

    lemma WokenOnce(job: BaseJob, id: Uuid, failed: bool)
      requires NoDuplicates(IdsOf(job.tasks)) && Indexes(registry, job.tasks)
      ensures multiset(IdsOf(Chosen(job.tasks, Wakers(ValuesOf(job.tasks), id, failed)))) ==
              multiset(JobHandling.Woken(Snapshot(registry), IdsOf(job.tasks), id, failed))
    {
      var ids, flags := IdsOf(job.tasks), Wakers(ValuesOf(job.tasks), id, failed);
      var woken := JobHandling.Woken(Snapshot(registry), ids, id, failed);
      forall k | k in woken
        ensures exists i :: 0 <= i < |ids| && flags[i] && ids[i] == k
      {
        var i :| 0 <= i < |ids| && ids[i] == k;
        assert registry[k] == job.tasks[i];
        assert flags[i];
      }
      ChosenOnce(ids, flags, woken);
      IdsOfChosen(job.tasks, flags);
    }

    method ProcessTask(task: DbTask) returns (res: HandleResult)
      requires Valid() && task.id in registry && registry[task.id] == task
      modifies this, registry.Values
      ensures Valid() && registry == old(registry)
      ensures Model() == JobHandling.ProcessTask(old(Model()), task.id)
      ensures res == if !JobHandling.Settled(old(task.Value())).status.IsDone() then ErrNotSupportedTaskStatus
                     else if task.jobId !in old(jobs) then ErrJobNotFound else Ok
    {
      ghost var s := Model();
      inFlight := inFlight - multiset{task.id};
      Settle(task);
      if !task.status.IsDone() {
        return ErrNotSupportedTaskStatus;
      }
      past := past.(processed := past.processed + {task.id});
      if task.jobId !in jobs {
        return ErrJobNotFound;
      }
      ProcessDoneTask(task);
      ProcessedModel(s, Model(), task.id);
      return Ok;
    }

    static lemma ProcessedModel(s: JobHandling.State, s': JobHandling.State, id: Uuid)
      requires id in s.tasks && JobHandling.Settled(s.tasks[id]).status.IsDone() && s.tasks[id].jobId in s.jobs
      requires
        var t := JobHandling.Settled(s.tasks[id]);
        var tasks1, members, failed := s.tasks[id := t], s.jobs[t.jobId], t.status.IsFailed();
        var woken := multiset(JobHandling.Woken(tasks1, members, id, failed));
        && s'.tasks == JobHandling.Announce(tasks1, members, id, failed)
        && s'.jobs == (if JobHandling.Finished(s'.tasks, members) then s.jobs - {t.jobId} else s.jobs)
        && s'.inFlight == s.inFlight - multiset{id} + woken
        && s'.past == s.past.(processed := s.past.processed + {id}, dispatched := s.past.dispatched + woken)
      ensures s' == JobHandling.ProcessTask(s, id)
    {
    }

    /** processCancellingTask, if the task is cancelling. */
    method Settle(task: DbTask)
      requires Valid() && task.id in registry && registry[task.id] == task
      modifies task
      ensures Valid() && task.Value() == JobHandling.Settled(old(task.Value()))
      ensures Snapshot(registry) == old(Snapshot(registry))[task.id := task.Value()]
    {
      if !task.status.IsDone() && task.cancelling {
        task.Cancel();
      }
    }

    method ProcessDoneTask(task: DbTask)
      requires Valid() && task.id in registry && registry[task.id] == task
      requires task.status.IsDone() && task.jobId in jobs
      modifies this, registry.Values
      ensures Valid() && registry == old(registry)
      ensures
        var members, failed := old(TaskLists())[task.jobId], old(task.status).IsFailed();
        var woken := multiset(JobHandling.Woken(old(Snapshot(registry)), members, task.id, failed));
        && Snapshot(registry) == JobHandling.Announce(old(Snapshot(registry)), members, task.id, failed)
        && TaskLists() == (if JobHandling.Finished(Snapshot(registry), members)
                           then old(TaskLists()) - {task.jobId} else old(TaskLists()))
        && inFlight == old(inFlight) + woken
        && past == old(past).(dispatched := old(past).dispatched + woken)
    {
      var job := jobs[task.jobId];
      assert Filed(registry, task.jobId, job);
      Announce(job, task);
      DropIfDone(job);
    }

    /** OnTaskDone, and the dispatch of what it reports. */
    method Announce(job: BaseJob, task: DbTask)
      requires Filed(registry, job.id, job) && task.status.IsDone()
      requires forall id :: id in registry ==> registry[id].id == id
      modifies this`inFlight, this`past, job.tasks
      ensures Snapshot(registry) ==
              JobHandling.Announce(old(Snapshot(registry)), IdsOf(job.tasks), task.id, old(task.status).IsFailed())
      ensures
        var woken := multiset(
          JobHandling.Woken(old(Snapshot(registry)), IdsOf(job.tasks), task.id, old(task.status).IsFailed()));
        inFlight == old(inFlight) + woken && past == old(past).(dispatched := old(past).dispatched + woken)
    {
      ghost var before := Snapshot(registry);
      WokenOnce(job, task.id, task.status.IsFailed());
      Members(job);
      ghost var failed := task.status.IsFailed();
      var ready := job.OnTaskDone(task);
      AnnouncedSnapshot(job, before, task.id, failed);
      ReadyToRun(ready);
    }

    lemma Members(job: BaseJob)
      requires Filed(registry, job.id, job)
      ensures NoDuplicates(job.tasks)
      ensures forall i :: 0 <= i < |job.tasks| ==> registry[job.tasks[i].id] == job.tasks[i]
      ensures forall k :: k in registry && registry[k].id == k && k !in IdsOf(job.tasks) ==> registry[k] !in job.tasks
    {
      var ids := IdsOf(job.tasks);
      assert forall i :: 0 <= i < |ids| ==> job.tasks[i].id == ids[i] && ids[i] in ids;
    }

    method DropIfDone(job: BaseJob)
      requires Valid() && job.id in jobs && jobs[job.id] == job
      modifies this`jobs
      ensures Valid()
      ensures TaskLists() == if JobHandling.Finished(Snapshot(registry), IdsOf(job.tasks))
                             then old(TaskLists()) - {job.id} else old(TaskLists())
    {
      assert Filed(registry, job.id, job);
      var done := job.IsDone();
      FinishedWhenDone(job);
      if done {
        jobs := jobs - {job.id};
        assert forall j :: j in jobs ==> Filed(registry, j, old(jobs)[j]);
      }
    }

    lemma AnnouncedSnapshot(job: BaseJob, before: map<Uuid, Task>, id: Uuid, failed: bool)
      requires Indexes(registry, job.tasks) && before.Keys == registry.Keys
      requires forall i :: 0 <= i < |job.tasks| ==> job.tasks[i].Value() == Notify(before[job.tasks[i].id], id, failed)
      requires forall k :: k in registry && k !in IdsOf(job.tasks) ==> registry[k].Value() == before[k]
      ensures Snapshot(registry) == JobHandling.Announce(before, IdsOf(job.tasks), id, failed)
    {
      var ids := IdsOf(job.tasks);
      forall k | k in registry && k in ids
        ensures registry[k].Value() == Notify(before[k], id, failed)
      {
        var i :| 0 <= i < |ids| && ids[i] == k;
        assert registry[k] == job.tasks[i];
      }
    }

    lemma FinishedWhenDone(job: BaseJob)
      requires Indexes(registry, job.tasks)
      ensures JobHandling.Finished(Snapshot(registry), IdsOf(job.tasks)) <==> AllDone(ValuesOf(job.tasks))
    {
      var ids, values := IdsOf(job.tasks), ValuesOf(job.tasks);
      assert forall i :: 0 <= i < |ids| ==> ids[i] in ids && Snapshot(registry)[ids[i]] == values[i];
    }
  }
}
