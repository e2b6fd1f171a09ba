/** Which jobs can end, when tasks may come back unfinished. */
module JobReturns {
  import opened Sequences
  import opened Tasks
  import opened JobHandling
  import opened JobProgress
  import JobDispatch

  // ---------- A refused task is stuck, and stays so ----------

  /** The one dispatch of a task that is not cancelling is used up when it comes back unfinished. */
  lemma {:induction false} RefusedIsStuck(run: seq<Event>, id: Uuid)
    requires IsRun(run) && CanReturn(After(run), id) && !CanProcess(After(run), id)
    ensures Stuck(ProcessTask(After(run), id), id)
  {
    JobDispatch.ReachableDispatch(run);
    var s := After(run);
    var t := s.tasks[id];
    ProcessTaskStep(s, id);
    assert TaskOk(s, id) && JobDispatch.DispatchOk(s, id);
    assert JobDispatch.Plain(s, t) by {
      if d :| d in t.dependsOn && d in s.tasks && s.tasks[d].status.IsFailed() {
        assert HeardFailure(s, t);
      }
    }
    assert s.inFlight[id] == 1;
  }

  /** Nothing that a job hears or a handler does helps a stuck task. */
  lemma StuckStays(s: State, e: Event, id: Uuid)
    requires Inv(s) && Enabled(s, e) && id in s.tasks && Stuck(s, id)
    ensures id in Apply(s, e).tasks && Stuck(Apply(s, e), id)
    ensures Apply(s, e).tasks[id].jobId == s.tasks[id].jobId
  {
    StepKeepsJobOf(s, e, id);
    assert TaskOk(s, id);
    match e
    case Add(jobId, _, newTasks, _) => assert jobId !in s.jobs ==> id !in newTasks;
    case Work(_, _) =>
    case Process(x) =>
      ProcessTaskStep(s, x);
      if CanProcess(s, x) {
        assert Apply(s, e).inFlight[id] == s.inFlight[id] + if Wakes(s, x, id) then 1 else 0;
      }
  }

  /** So its job is held for ever, whatever is added and whatever comes back. */
  lemma {:induction false} StuckForGood(s: State, run: seq<Event>, id: Uuid)
    requires Inv(s) && Follows(s, run) && id in s.tasks && Stuck(s, id)
    ensures id in Reached(s, run).tasks && Stuck(Reached(s, run), id)
    ensures s.tasks[id].jobId in Reached(s, run).jobs && HasStuck(Reached(s, run), s.tasks[id].jobId)
    decreases |run|
  {
    if run == [] {
      StuckIsHeld(s);
    } else {
      StuckStays(s, run[0], id);
      StepKeepsInv(s, run[0]);
      StuckForGood(Apply(s, run[0]), run[1..], id);
    }
  }

  // ---------- A job without a stuck task can end ----------

  ghost predicate MayEnd(s: State, jobId: Uuid) {
    exists run {:trigger Follows(s, run)} :: Follows(s, run) && jobId !in Reached(s, run).jobs
  }

  lemma EventThenFollows(s: State, e: Event, rest: seq<Event>)
    requires Enabled(s, e) && Follows(Apply(s, e), rest)
    ensures Follows(s, [e] + rest) && Reached(s, [e] + rest) == Reached(Apply(s, e), rest)
  {
    assert ([e] + rest)[1..] == rest;
  }

  /** Let every worker complete: the job is dropped in the end. */
  lemma {:induction false} SomeRunEnds(s: State, jobId: Uuid) returns (run: seq<Event>)
    requires Inv(s) && jobId !in s.past.stillborn && !HasStuck(s, jobId)
    ensures Follows(s, run) && jobId !in Reached(s, run).jobs
    decreases Measure(s)
  {
    if jobId !in s.jobs {
      run := [];
    } else {
      var id := HeldJobIsInFlight(s, jobId);
      var e := if s.tasks[id].status.IsDone() then Process(id) else Work(id, Completed);
      StepKeepsInv(s, e);
      StepKeepsUnstuck(s, e, jobId);
      if e.Work? {
        WorkDecreases(s, id, Completed);
      } else {
        ReturnDecreases(s, id);
        ProcessTaskStep(s, id);
      }
      var rest := SomeRunEnds(Apply(s, e), jobId);
      EventThenFollows(s, e, rest);
      run := [e] + rest;
    }
  }

  /** In every reachable state, a job that was not finished when added can end exactly when no task of it is stuck. */
  lemma MayEndIff(prefix: seq<Event>, jobId: Uuid)
    requires IsRun(prefix) && jobId !in After(prefix).past.stillborn
    ensures MayEnd(After(prefix), jobId) <==> !HasStuck(After(prefix), jobId)
  {
    ReachableInv(prefix);
    JobMayEndIff(After(prefix), jobId);
  }

  lemma JobMayEndIff(s: State, jobId: Uuid)
    requires Inv(s) && jobId !in s.past.stillborn
    ensures MayEnd(s, jobId) <==> !HasStuck(s, jobId)
  {
    if id :| id in s.tasks && s.tasks[id].jobId == jobId && Stuck(s, id) {
      forall run | Follows(s, run)
        ensures jobId in Reached(s, run).jobs
      {
        StuckForGood(s, run, id);
      }
    } else {
      var run := SomeRunEnds(s, jobId);
      assert Follows(s, run);
    }
  }

  /**
   * The return of one task decides: with nothing stuck before, the job can still end after the return exactly when
   * the task came back done or cancelling.
   */
  lemma {:induction false} ReturnDecides(prefix: seq<Event>, id: Uuid)
    requires IsRun(prefix) && CanReturn(After(prefix), id)
    requires var s := After(prefix); s.tasks[id].jobId !in s.past.stillborn && !HasStuck(s, s.tasks[id].jobId)
    ensures var s := After(prefix);
      MayEnd(ProcessTask(s, id), s.tasks[id].jobId) <==> CanProcess(s, id)
  {
    ReachableInv(prefix);
    var s, e := After(prefix), Process(id);
    var j := s.tasks[id].jobId;
    StepKeepsInv(s, e);
    ProcessTaskStep(s, id);
    JobMayEndIff(ProcessTask(s, id), j);
    if CanProcess(s, id) {
      StepKeepsUnstuck(s, e, j);
    } else {
      RefusedIsStuck(prefix, id);
      assert HasStuck(ProcessTask(s, id), j);
    }
  }

  // ---------- Whole runs ----------

  /** Every task came back done or cancelling. */
  ghost predicate IsOrderly(run: seq<Event>)
    requires IsRun(run)
  {
    run == [] || (IsOrderly(run[..|run| - 1]) && !Refused(After(run[..|run| - 1]), run[|run| - 1]))
  }

  lemma {:induction false} OrderlyMeansUnstuck(run: seq<Event>, jobId: Uuid)
    requires IsRun(run) && IsOrderly(run)
    ensures !HasStuck(After(run), jobId)
  {
    if run == [] {
    } else {
      var before := run[..|run| - 1];
      ReachableInv(before);
      OrderlyMeansUnstuck(before, jobId);
      StepKeepsUnstuck(After(before), run[|run| - 1], jobId);
    }
  }

  lemma {:induction false} DisorderlyMeansStuck(run: seq<Event>) returns (id: Uuid)
    requires IsRun(run) && !IsOrderly(run)
    ensures id in After(run).tasks && Stuck(After(run), id)
  {
    var before, e := run[..|run| - 1], run[|run| - 1];
    ReachableInv(before);
    if IsOrderly(before) {
      id := e.id;
      RefusedIsStuck(before, id);
    } else {
      id := DisorderlyMeansStuck(before);
      StuckStays(After(before), e, id);
    }
  }

  /** In every reachable state: no task is stuck exactly when every task so far came back done or cancelling. */
  lemma {:induction false} OrderlyIff(run: seq<Event>)
    requires IsRun(run)
    ensures IsOrderly(run) <==> forall j :: !HasStuck(After(run), j)
  {
    if IsOrderly(run) {
      forall j
        ensures !HasStuck(After(run), j)
      {
        OrderlyMeansUnstuck(run, j);
      }
    } else {
      var id := DisorderlyMeansStuck(run);
      assert HasStuck(After(run), After(run).tasks[id].jobId);
    }
  }

  lemma AtRestIff(s: State)
    requires Inv(s) && Quiescent(s) && s.past.stillborn == {}
    ensures s.jobs == map[] <==> forall j :: !HasStuck(s, j)
    ensures s.jobs == map[] ==> forall id :: id in s.tasks ==> s.tasks[id].status.IsDone()
  {
    QuiescentMeansFinished(s);
    StuckIsHeld(s);
    if s.jobs != map[] {
      var j :| j in s.jobs;
      assert HasStuck(s, j);
    }
  }

  /**
   * Every job ends, and every task with it, exactly in the runs in which every task came back done or cancelling:
   * for any run of jobs with something to do that can go no further.
   */
  lemma EveryJobEndsIff(run: seq<Event>)
    requires IsRun(run) && AddsUnfinished(run) && Quiescent(After(run))
    ensures After(run).jobs == map[] <==> IsOrderly(run)
    ensures IsOrderly(run) ==> forall id :: id in After(run).tasks ==> After(run).tasks[id].status.IsDone()
  {
    ReachableInv(run);
    NothingStillborn(run);
    OrderlyIff(run);
    AtRestIff(After(run));
  }

  // ---------- The smallest such job ----------

  lemma OneTaskIsAcyclic(newTasks: map<Uuid, Task>, t: Task)
    requires newTasks.Keys == {t.id} && newTasks[t.id] == t && t.dependsOn == []
    ensures Acyclic(newTasks)
  {
    forall group: set<Uuid> | group != {} && group <= newTasks.Keys
      ensures HasRoot(newTasks, group)
    {
      var y :| y in group;
      assert y in newTasks.Keys;
    }
  }

  lemma OneTaskIsWellFormed(s: State, jobId: Uuid, newTasks: map<Uuid, Task>, t: Task)
    requires t == Task(t.id, jobId, [], Pending, [], false, 0) && t.id !in s.tasks
    requires newTasks.Keys == {t.id} && newTasks[t.id] == t
    ensures WellFormedJob(s, jobId, [t.id], newTasks) && !Finished(newTasks, [t.id]) && ReadyOf(newTasks) == {t.id}
  {
    assert NewTaskOk(jobId, t.id, newTasks);
    assert t.id in [t.id];
  }

  /** A ready task is in flight as soon as its job is added. */
  lemma ReadyTaskIsDispatched(s: State, e: Event, id: Uuid)
    requires e.Add? && Enabled(s, e) && e.jobId !in s.jobs && id in e.newTasks && e.newTasks[id].IsReadyToRun()
    ensures CanReturn(Apply(s, e), id) && Apply(s, e).tasks[id] == e.newTasks[id]
  {
    assert id in ReadyOf(e.newTasks);
    assert id in multiset(ReadyOf(e.newTasks));
  }

  lemma FirstEvent(e: Event)
    requires Enabled(INITIAL, e)
    ensures IsRun([e]) && After([e]) == Apply(INITIAL, e)
  {
    RunOneMore([], e);
    assert [] + [e] == [e];
  }

  lemma OneTaskIsEnabled(add: Event, t: Task)
    requires add.Add? && t == Task(t.id, add.jobId, [], Pending, [], false, 0)
    requires add.members == [t.id] && add.newTasks.Keys == {t.id} && add.newTasks[t.id] == t
    ensures Enabled(INITIAL, add) && AddsUnfinished([add])
  {
    OneTaskIsAcyclic(add.newTasks, t);
    OneTaskIsWellFormed(INITIAL, add.jobId, add.newTasks, t);
  }

  lemma OneTaskArrives(add: Event, t: Task)
    requires add.Add? && add.newTasks.Keys == {t.id} && add.newTasks[t.id] == t
    requires t.IsReadyToRun() && !t.cancelling && Enabled(INITIAL, add)
    ensures IsRun([add])
    ensures CanReturn(After([add]), t.id) && !CanProcess(After([add]), t.id) && After([add]).tasks[t.id] == t
  {
    FirstEvent(add);
    ReadyTaskIsDispatched(INITIAL, add, t.id);
  }

  /**
   * One task that its worker hands back as it got it, Pending: a create step that finds another owner, or a step that
   * gets no connection. The job is held, and no later run ends it.
   */
  lemma PendingReturnHoldsTheJob(jobId: Uuid, t: Task) returns (run: seq<Event>)
    requires t == Task(t.id, jobId, [], Pending, [], false, 0)
    ensures run == [Add(jobId, [t.id], map[t.id := t], {}), Process(t.id)] && IsRun(run) && AddsUnfinished(run)
    ensures jobId in After(run).jobs && !MayEnd(After(run), jobId)
  {
    var add := Add(jobId, [t.id], map[t.id := t], {});
    OneTaskIsEnabled(add, t);
    OneTaskArrives(add, t);
    run := RefusedReturnHoldsTheJob([add], t.id);
  }

  lemma RefusedReturnHoldsTheJob(before: seq<Event>, id: Uuid) returns (run: seq<Event>)
    requires IsRun(before) && AddsUnfinished(before) && CanReturn(After(before), id) && !CanProcess(After(before), id)
    ensures run == before + [Process(id)] && IsRun(run) && AddsUnfinished(run)
    ensures var j := After(before).tasks[id].jobId; j in After(run).jobs && !MayEnd(After(run), j)
  {
    run := before + [Process(id)];
    RunOneMore(before, Process(id));
    ProcessTaskStep(After(before), id);
    RefusedIsStuck(before, id);
    NothingStillborn(run);
    assert HasStuck(After(run), After(before).tasks[id].jobId);
    MayEndIff(run, After(before).tasks[id].jobId);
    ReachableInv(run);
    StuckIsHeld(After(run));
  }
}
