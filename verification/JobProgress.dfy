/** Every job ends unless a task of it has come back unfinished. */
module JobProgress {
  import opened Sequences
  import opened Tasks
  import opened JobHandling

  /** A held job without a stuck task always has a dispatched task that its handler has not processed yet. */
  lemma HeldJobIsInFlight(s: State, jobId: Uuid) returns (id: Uuid)
    requires Inv(s) && jobId in s.jobs && jobId !in s.past.stillborn && !HasStuck(s, jobId)
    ensures id in s.inFlight && id in s.tasks && s.tasks[id].jobId == jobId
  {
    var members := s.jobs[jobId];
    assert JobOk(s, jobId);
    var group := set m | m in members && !s.tasks[m].status.IsDone();
    if group == {} {
      id :| id in members && id in s.tasks && (id in s.inFlight || !s.tasks[id].status.IsDone());
      assert id !in group;
    } else {
      // A task all of whose dependencies are done: it is ready, or one of them is still on its way back.
      var x := RootOf(s.tasks, group);
      var t := s.tasks[x];
      assert TaskOk(s, x);
      if t.live == [] {
        assert !Stuck(s, x);
        id := x;
      } else {
        id := t.live[0];
        WithoutMembers(t.dependsOn, s.past.processed);
        assert id in t.live;
        assert TaskOk(s, id);
        assert id !in group;
      }
    }
  }

  /** A job is dropped only when all its tasks are done. */
  lemma UnfinishedTaskIsHeld(run: seq<Event>, id: Uuid)
    requires IsRun(run) && id in After(run).tasks && !After(run).tasks[id].status.IsDone()
    ensures var s := After(run); s.tasks[id].jobId in s.jobs && id in s.jobs[s.tasks[id].jobId]
  {
    ReachableInv(run);
    assert TaskOk(After(run), id);
  }

  // ---------- The measure ----------

  ghost function Sum(m: map<Uuid, nat>): nat
    decreases |m|
  {
    if m == map[] then 0
    else
      var k :| k in m;
      m[k] + Sum(m - {k})
  }

  lemma {:induction false} SumSplit(m: map<Uuid, nat>, k: Uuid)
    requires k in m
    ensures Sum(m) == m[k] + Sum(m - {k})
    decreases |m|
  {
    var j :| j in m && Sum(m) == m[j] + Sum(m - {j});
    if j != k {
      SumSplit(m - {j}, k);
      SumSplit(m - {k}, j);
      assert (m - {j}) - {k} == (m - {k}) - {j};
    }
  }

  /** Lowering every value, and strictly on a set of keys, lowers the sum by at least the size of the set. */
  lemma {:induction false} SumDrops(a: map<Uuid, nat>, b: map<Uuid, nat>, lower: set<Uuid>)
    requires a.Keys == b.Keys && lower <= a.Keys
    requires forall k :: k in a ==> b[k] + (if k in lower then 1 else 0) <= a[k]
    ensures Sum(b) + |lower| <= Sum(a)
    decreases |a|
  {
    if a == map[] {
      assert b == map[] && lower == {};
    } else {
      var k :| k in a;
      SumSplit(a, k);
      SumSplit(b, k);
      SumDrops(a - {k}, b - {k}, lower - {k});
      if k in lower {
        assert |lower - {k}| == |lower| - 1;
      } else {
        assert lower - {k} == lower;
      }
    }
  }

  function Weight(t: Task): nat {
    |t.live| + 2 - t.status.Rank()
  }

  function Weights(s: State): map<Uuid, nat> {
    map k | k in s.tasks :: Weight(s.tasks[k])
  }

  /** What is left to announce and to do, plus what is in flight. */
  ghost function Measure(s: State): nat {
    Sum(Weights(s)) + |s.inFlight|
  }

  lemma WorkDecreases(s: State, id: Uuid, status: Status)
    requires CanWork(s, id, status)
    ensures Measure(WorkOn(s, id, status)) < Measure(s)
  {
    SumDrops(Weights(s), Weights(WorkOn(s, id, status)), {id});
  }

  lemma NotifyWeight(t: Task, id: Uuid, failed: bool)
    ensures Weight(Notify(t, id, failed)) + (if WakesUp(t, id, failed) then 1 else 0) <= Weight(t)
  {
    if id in t.live {
      RemoveFirstLength(t.live, id);
    }
  }

  lemma ProcessedWeight(s: State, id: Uuid, k: Uuid)
    requires CanProcess(s, id) && k in s.tasks
    ensures Weight(Processed(s, id, k)) <= Weight(s.tasks[k])
    ensures k != id && Wakes(s, id, k) ==> Weight(Processed(s, id, k)) < Weight(s.tasks[k])
  {
    var t := Settled(s.tasks[id]);
    NotifyWeight(if k == id then t else s.tasks[k], id, t.status.IsFailed());
  }

  lemma ProcessFlightSize(s: State, id: Uuid) returns (woken: set<Uuid>)
    requires CanProcess(s, id)
    ensures woken <= s.tasks.Keys
    ensures forall k :: k in woken ==> k != id && Wakes(s, id, k)
    ensures |ProcessTask(s, id).inFlight| == |s.inFlight| - 1 + |woken|
  {
    var t := Settled(s.tasks[id]);
    if t.jobId in s.jobs {
      var tasks1 := s.tasks[id := t];
      woken := Woken(tasks1, s.jobs[t.jobId], id, t.status.IsFailed());
      assert ProcessTask(s, id).inFlight == s.inFlight - multiset{id} + multiset(woken);
    } else {
      woken := {};
    }
  }

  lemma ProcessDecreases(s: State, id: Uuid)
    requires CanProcess(s, id)
    ensures Measure(ProcessTask(s, id)) < Measure(s)
  {
    var woken := ProcessFlightSize(s, id);
    var s' := ProcessTask(s, id);
    ProcessTasks(s, id);
    forall k | k in s.tasks
      ensures Weights(s')[k] + (if k in woken then 1 else 0) <= Weights(s)[k]
    {
      ProcessedWeight(s, id, k);
    }
    SumDrops(Weights(s), Weights(s'), woken);
  }

  lemma ReturnDecreases(s: State, id: Uuid)
    requires CanReturn(s, id)
    ensures Measure(ProcessTask(s, id)) < Measure(s)
  {
    if CanProcess(s, id) {
      ProcessDecreases(s, id);
    } else {
      ProcessTaskStep(s, id);
      assert |s.inFlight - multiset{id}| == |s.inFlight| - 1;
    }
  }

  // ---------- Every run ends ----------

  /** A run without new jobs, from a given state. */
  ghost predicate WorksThrough(s: State, run: seq<Event>)
    decreases |run|
  {
    run == [] || (!run[0].Add? && Enabled(s, run[0]) && WorksThrough(Apply(s, run[0]), run[1..]))
  }

  ghost function EndOf(s: State, run: seq<Event>): State
    requires WorksThrough(s, run)
    decreases |run|
  {
    if run == [] then s else EndOf(Apply(s, run[0]), run[1..])
  }

  /** A run from a given state, new jobs included. */
  ghost predicate Follows(s: State, run: seq<Event>)
    decreases |run|
  {
    run == [] || (Enabled(s, run[0]) && Follows(Apply(s, run[0]), run[1..]))
  }

  ghost function Reached(s: State, run: seq<Event>): State
    requires Follows(s, run)
    decreases |run|
  {
    if run == [] then s else Reached(Apply(s, run[0]), run[1..])
  }

  lemma {:induction false} WorkingFollows(s: State, run: seq<Event>)
    requires WorksThrough(s, run)
    ensures Follows(s, run) && Reached(s, run) == EndOf(s, run)
    decreases |run|
  {
    if run == [] {
    } else {
      WorkingFollows(Apply(s, run[0]), run[1..]);
    }
  }

  ghost predicate Quiescent(s: State) {
    forall e: Event :: !e.Add? ==> !Enabled(s, e)
  }

  /** Without new jobs, only finitely many steps can be taken: at most Measure of them. */
  lemma {:induction false} RunsAreBounded(s: State, run: seq<Event>)
    requires Inv(s) && WorksThrough(s, run)
    ensures |run| + Measure(EndOf(s, run)) <= Measure(s)
    ensures Inv(EndOf(s, run)) && EndOf(s, run).past.stillborn == s.past.stillborn
    decreases |run|
  {
    if run == [] {
    } else {
      match run[0] {
        case Work(id, status) => WorkDecreases(s, id, status);
        case Process(id) => ReturnDecreases(s, id);
      }
      StepKeepsInv(s, run[0]);
      RunsAreBounded(Apply(s, run[0]), run[1..]);
    }
  }

  /**
   * Where no step is left, nothing is in flight, and whatever is not over has a stuck task: every held job that was
   * not finished when it was added, and the job of every unfinished task.
   */
  lemma QuiescentMeansFinished(s: State)
    requires Inv(s) && Quiescent(s)
    ensures s.inFlight == multiset{}
    ensures forall j :: j in s.jobs && j !in s.past.stillborn ==> HasStuck(s, j)
    ensures forall id :: id in s.tasks && !s.tasks[id].status.IsDone() ==> HasStuck(s, s.tasks[id].jobId)
  {
    NothingInFlightAtRest(s);
    forall j | j in s.jobs && j !in s.past.stillborn
      ensures HasStuck(s, j)
    {
      if !HasStuck(s, j) {
        var _ := HeldJobIsInFlight(s, j);
        assert false;
      }
    }
    forall id | id in s.tasks && !s.tasks[id].status.IsDone()
      ensures HasStuck(s, s.tasks[id].jobId)
    {
      var group := set k | k in s.tasks && !s.tasks[k].status.IsDone() && s.tasks[k].jobId == s.tasks[id].jobId;
      assert id in group && group <= s.tasks.Keys;
      var x := RootOf(s.tasks, group);
      assert TaskOk(s, x);
      RootIsStuck(s, x);
    }
  }

  lemma NothingInFlightAtRest(s: State)
    requires Inv(s) && Quiescent(s)
    ensures s.inFlight == multiset{}
  {
    forall id
      ensures s.inFlight[id] == 0
    {
      assert !Enabled(s, Process(id));
    }
  }

  /** With nothing in flight, every done task has been announced; so a root among the unfinished ones is ready. */
  lemma RootIsStuck(s: State, x: Uuid)
    requires Inv(s) && x in s.tasks && !s.tasks[x].status.IsDone() && s.inFlight == multiset{}
    requires forall d :: d in s.tasks[x].dependsOn ==> d in s.tasks && s.tasks[d].status.IsDone()
    ensures Stuck(s, x)
  {
    assert TaskOk(s, x);
    forall d | d in s.tasks[x].dependsOn
      ensures d in s.past.processed
    {
      assert TaskOk(s, d);
    }
    WithoutAll(s.tasks[x].dependsOn, s.past.processed);
  }

  /**
   * Where every run leads: from any reachable state, a run without new jobs that can go no further was no longer
   * than the measure of that state, and it has dropped every job that was not finished when it was added, and
   * finished every task, but for jobs with a stuck task.
   */
  lemma EveryJobEnds(prefix: seq<Event>, run: seq<Event>)
    requires IsRun(prefix) && WorksThrough(After(prefix), run) && Quiescent(EndOf(After(prefix), run))
    ensures |run| <= Measure(After(prefix))
    ensures var end := EndOf(After(prefix), run);
      && (forall j :: j in end.jobs && j !in After(prefix).past.stillborn ==> HasStuck(end, j))
      && (forall id :: id in end.tasks && !end.tasks[id].status.IsDone() ==> HasStuck(end, end.tasks[id].jobId))
  {
    ReachableInv(prefix);
    RunsAreBounded(After(prefix), run);
    QuiescentMeansFinished(EndOf(After(prefix), run));
  }

  /** Every job added still has a task to do, as every sender of jobs sees to. */
  ghost predicate AddsUnfinished(run: seq<Event>) {
    forall i :: 0 <= i < |run| && run[i].Add? ==> !Finished(run[i].newTasks, run[i].members)
  }

  lemma {:induction false} NothingStillborn(run: seq<Event>)
    requires IsRun(run) && AddsUnfinished(run)
    ensures After(run).past.stillborn == {}
  {
    if run == [] {
    } else {
      NothingStillborn(run[..|run| - 1]);
    }
  }

  /** So with such jobs only, what a run that can go no further still holds is exactly the jobs with a stuck task. */
  lemma EveryUnfinishedJobEnds(prefix: seq<Event>, run: seq<Event>)
    requires IsRun(prefix) && AddsUnfinished(prefix)
    requires WorksThrough(After(prefix), run) && Quiescent(EndOf(After(prefix), run))
    ensures |run| <= Measure(After(prefix))
    ensures var end := EndOf(After(prefix), run);
      forall j :: j in end.jobs <==> HasStuck(end, j)
  {
    NothingStillborn(prefix);
    EveryJobEnds(prefix, run);
    ReachableInv(prefix);
    RunsAreBounded(After(prefix), run);
    StuckIsHeld(EndOf(After(prefix), run));
  }

  lemma StuckIsHeld(s: State)
    requires Inv(s)
    ensures forall j :: HasStuck(s, j) ==> j in s.jobs
  {
    forall id | id in s.tasks && Stuck(s, id)
      ensures s.tasks[id].jobId in s.jobs
    {
      assert TaskOk(s, id);
    }
  }

  // ---------- A job that is finished when it is added ----------

  /** A job is not stuck as it is added. */
  lemma NewJobIsUnstuck(s: State, e: Event)
    requires Inv(s) && e.Add? && Enabled(s, e) && e.jobId !in s.jobs
    ensures !HasStuck(Apply(s, e), e.jobId)
  {
    var s' := Apply(s, e);
    StuckIsHeld(s);
    if id :| id in s'.tasks && s'.tasks[id].jobId == e.jobId && Stuck(s', id) {
      StuckOnlyByRefusal(s, e, id);
      StepKeepsJobOf(s, e, id);
    }
  }

  ghost predicate Abandoned(s: State, jobId: Uuid) {
    jobId in s.jobs && forall id :: id in s.inFlight && id in s.tasks ==> s.tasks[id].jobId != jobId
  }

  /** addJob drops no job: a new job is abandoned from the start exactly when it is already finished. */
  lemma AbandonedIffFinished(s: State, jobId: Uuid, members: seq<Uuid>, newTasks: map<Uuid, Task>)
    requires Inv(s) && WellFormedJob(s, jobId, members, newTasks) && Acyclic(newTasks) && jobId !in s.jobs
    requires forall id :: id in s.inFlight ==> id in s.tasks && s.tasks[id].jobId != jobId
    ensures Abandoned(AddJob(s, jobId, members, newTasks, {}), jobId) <==> Finished(newTasks, members)
  {
    var s' := AddJob(s, jobId, members, newTasks, {});
    if Finished(newTasks, members) {
      assert forall id :: id in s'.inFlight ==> id in s.inFlight;
    } else {
      AddKeepsInv(s, jobId, members, newTasks, {});
      NewJobIsUnstuck(s, Add(jobId, members, newTasks, {}));
      var _ := HeldJobIsInFlight(s', jobId);
    }
  }

  /** No later run, whatever jobs it adds, ever drops an abandoned job. */
  lemma {:induction false} AbandonedForGood(s: State, run: seq<Event>, jobId: Uuid)
    requires Inv(s) && Abandoned(s, jobId) && Follows(s, run)
    ensures Abandoned(Reached(s, run), jobId)
    decreases |run|
  {
    if run == [] {
    } else {
      match run[0] {
        case Add(_, _, _, _) => AbandonedByAdd(s, run[0], jobId);
        case Work(_, _) =>
        case Process(id) => AbandonedByReturn(s, id, jobId);
      }
      StepKeepsInv(s, run[0]);
      AbandonedForGood(Apply(s, run[0]), run[1..], jobId);
    }
  }

  lemma AbandonedByAdd(s: State, e: Event, jobId: Uuid)
    requires Tidy(s) && Abandoned(s, jobId) && e.Add? && Enabled(s, e)
    ensures Abandoned(Apply(s, e), jobId)
  {
    var s' := Apply(s, e);
    if e.jobId !in s.jobs {
      forall k | k in s'.inFlight && k in s'.tasks
        ensures s'.tasks[k].jobId != jobId
      {
        if k in e.newTasks {
          assert NewTaskOk(e.jobId, k, e.newTasks);
        } else {
          assert k in s.inFlight && k in s.tasks;
        }
      }
    }
  }

  lemma AbandonedByReturn(s: State, id: Uuid, jobId: Uuid)
    requires Tidy(s) && Abandoned(s, jobId) && CanReturn(s, id)
    ensures Abandoned(ProcessTask(s, id), jobId)
  {
    ProcessTaskStep(s, id);
    if CanProcess(s, id) {
      AbandonedByProcess(s, id, jobId);
    }
  }

  lemma AbandonedByProcess(s: State, id: Uuid, jobId: Uuid)
    requires Tidy(s) && Abandoned(s, jobId) && CanProcess(s, id)
    ensures Abandoned(ProcessTask(s, id), jobId)
  {
    ProcessTaskStep(s, id);
    var s' := ProcessTask(s, id);
    forall k | k in s'.inFlight && k in s'.tasks
      ensures s'.tasks[k].jobId != jobId
    {
      if k != id {
        assert s'.inFlight[k] == s.inFlight[k] + if Wakes(s, id, k) then 1 else 0;
        if Wakes(s, id, k) {
          assert JobOk(s, s.tasks[id].jobId);
        }
      }
    }
  }
}
