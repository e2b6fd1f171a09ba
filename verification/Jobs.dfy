/**
 * A job: a list of tasks with dependency lists (internal/job/job.go), and its recovery from
 * the rows of the task table (recoverJob in internal/handler/db_task/handler.go).
 */
module Jobs {
  import opened Sequences
  import opened Tasks

  // ---------- Completion of one task, on snapshots ----------

  function NotifyAll(ts: seq<Task>, id: Uuid, failed: bool): seq<Task> {
    seq(|ts|, i requires 0 <= i < |ts| => Notify(ts[i], id, failed))
  }

  /** For each task, whether OnTaskDone reports it for dispatch. */
  function Wakers(ts: seq<Task>, id: Uuid, failed: bool): seq<bool> {
    seq(|ts|, i requires 0 <= i < |ts| => WakesUp(ts[i], id, failed))
  }

  function Readiness(ts: seq<Task>): seq<bool> {
    seq(|ts|, i requires 0 <= i < |ts| => ts[i].IsReadyToRun())
  }

  /** The elements whose flag is set, in order. */
  function Chosen<T>(xs: seq<T>, flags: seq<bool>): seq<T>
    requires |xs| == |flags|
  {
    if xs == [] then []
    else Chosen(xs[..|xs| - 1], flags[..|xs| - 1]) + if flags[|xs| - 1] then [xs[|xs| - 1]] else []
  }

  lemma {:induction false} ChosenMembers<T>(xs: seq<T>, flags: seq<bool>)
    requires |xs| == |flags|
    ensures forall x :: x in Chosen(xs, flags) <==> exists i :: 0 <= i < |xs| && flags[i] && xs[i] == x
  {
    if xs == [] {
    } else {
      ChosenMembers(xs[..|xs| - 1], flags[..|xs| - 1]);
    }
  }

  lemma ChosenOneMore<T>(xs: seq<T>, flags: seq<bool>, i: nat)
    requires |xs| == |flags| && i < |xs|
    ensures Chosen(xs[..i + 1], flags[..i + 1]) == Chosen(xs[..i], flags[..i]) + if flags[i] then [xs[i]] else []
  {
    assert xs[..i + 1][..i] == xs[..i] && flags[..i + 1][..i] == flags[..i];
  }

  predicate AllDone(ts: seq<Task>) {
    forall i :: 0 <= i < |ts| ==> ts[i].status.IsDone()
  }

  // ---------- Replay of finished tasks ----------

  /** Init after its first n iterations. */
  function Replay(ts: seq<Task>, n: nat): (r: seq<Task>)
    requires n <= |ts|
    ensures |r| == |ts|
    ensures forall i :: 0 <= i < |ts| ==> r[i].status == ts[i].status && r[i].id == ts[i].id
  {
    if n == 0 then ts
    else
      var r := Replay(ts, n - 1);
      if r[n - 1].status.IsDone() then NotifyAll(r, r[n - 1].id, r[n - 1].status.IsFailed()) else r
  }

  function DoneIn(ts: seq<Task>): set<Uuid> {
    set t | t in ts && t.status.IsDone() :: t.id
  }

  function FailedIn(ts: seq<Task>): set<Uuid> {
    set t | t in ts && t.status.IsFailed() :: t.id
  }

  /** Rows as NewDbTask wraps them: distinct ids, duplicate-free dependency lists, nothing heard yet. */
  ghost predicate FreshRows(rows: seq<Task>) {
    && (forall i, j :: 0 <= i < j < |rows| ==> rows[i].id != rows[j].id)
    && (forall i :: 0 <= i < |rows| ==> rows[i].IsFresh() && NoDuplicates(rows[i].dependsOn))
  }

  /**
   * What recovery makes of the row t when the tasks in done have finished and those in failed have
   * finished badly. It says nothing of cancelBy, which does depend on the order of the rows.
   */
  ghost predicate Rebuilt(t: Task, r: Task, done: set<Uuid>, failed: set<Uuid>) {
    if t.status.IsDone() then r == t
    else
      && r.id == t.id && r.jobId == t.jobId && r.dependsOn == t.dependsOn && r.status == t.status
      && r.live == Without(t.dependsOn, done)
      && (r.cancelling <==> exists d :: d in t.dependsOn && d in failed)
  }

  lemma {:induction false} NotifyRebuilds(t: Task, r: Task, done: set<Uuid>, failed: set<Uuid>, id: Uuid, bad: bool)
    requires NoDuplicates(t.dependsOn)
    requires Rebuilt(t, r, done, failed) && id !in done && failed <= done
    ensures Rebuilt(t, Notify(r, id, bad), done + {id}, if bad then failed + {id} else failed)
  {
    if !t.status.IsDone() {
      RemoveFirstFromWithout(t.dependsOn, done, id);
      WithoutMembers(t.dependsOn, done);
      if id !in r.live {
        RemoveFirstMissing(r.live, id);
      }
    }
  }

  lemma {:induction false} ReplayRebuilds(rows: seq<Task>, n: nat, k: nat)
    requires FreshRows(rows) && n <= |rows| && k < |rows|
    ensures Rebuilt(rows[k], Replay(rows, n)[k], DoneIn(rows[..n]), FailedIn(rows[..n]))
  {
    if n == 0 {
      assert DoneIn(rows[..0]) == {} == FailedIn(rows[..0]);
      WithoutNothing(rows[k].dependsOn, {});
    } else {
      ReplayRebuilds(rows, n - 1, k);
      OneMoreRow(rows, n);
      var t := rows[n - 1];
      if t.status.IsDone() {
        NotifyRebuilds(rows[k], Replay(rows, n - 1)[k], DoneIn(rows[..n - 1]), FailedIn(rows[..n - 1]),
                       t.id, t.status.IsFailed());
      }
    }
  }

  lemma OneMoreRow(rows: seq<Task>, n: nat)
    requires 0 < n <= |rows|
    ensures var t := rows[n - 1];
      && DoneIn(rows[..n]) == (if t.status.IsDone() then DoneIn(rows[..n - 1]) + {t.id} else DoneIn(rows[..n - 1]))
      && FailedIn(rows[..n]) ==
         (if t.status.IsFailed() then FailedIn(rows[..n - 1]) + {t.id} else FailedIn(rows[..n - 1]))
  {
    assert rows[..n] == rows[..n - 1] + [rows[n - 1]];
  }

  /** Recovery has a closed form in which the order of the rows does not appear. */
  lemma {:induction false} RecoveryClosedForm(rows: seq<Task>, k: nat)
    requires FreshRows(rows) && k < |rows|
    ensures Rebuilt(rows[k], Replay(rows, |rows|)[k], DoneIn(rows), FailedIn(rows))
  {
    assert rows[..|rows|] == rows;
    ReplayRebuilds(rows, |rows|, k);
  }

  /** The ids that ReadyToRun reports. */
  function ReadyIds(ts: seq<Task>): set<Uuid> {
    set t | t in ts && t.IsReadyToRun() :: t.id
  }

  lemma {:induction false} ReadyIdsWithin(rows: seq<Task>, others: seq<Task>)
    requires FreshRows(rows) && FreshRows(others) && multiset(rows) == multiset(others)
    ensures ReadyIds(Replay(rows, |rows|)) <= ReadyIds(Replay(others, |others|))
  {
    SameMembers(rows, others);
    var r, o := Replay(rows, |rows|), Replay(others, |others|);
    forall id | id in ReadyIds(r)
      ensures id in ReadyIds(o)
    {
      var k :| 0 <= k < |r| && r[k].IsReadyToRun() && r[k].id == id;
      RecoveryClosedForm(rows, k);
      assert rows[k] in others;
      var j :| 0 <= j < |others| && others[j] == rows[k];
      RecoveryClosedForm(others, j);
      assert o[j] in o && o[j].id == id;
    }
  }

  lemma SameMembers(a: seq<Task>, b: seq<Task>)
    requires multiset(a) == multiset(b)
    ensures forall t :: t in a <==> t in b
    ensures DoneIn(a) == DoneIn(b) && FailedIn(a) == FailedIn(b)
  {
    assert forall t :: t in a <==> t in multiset(a);
    assert forall t :: t in b <==> t in multiset(b);
  }

  /**
   * The query that lists the rows of a job has no ORDER BY. Whatever order it picks, recovery leaves
   * every task with the same live list and the same cancelling flag, and dispatches the same tasks.
   */
  lemma {:induction false} RecoveryIgnoresRowOrder(rows: seq<Task>, others: seq<Task>)
    requires FreshRows(rows) && FreshRows(others) && multiset(rows) == multiset(others)
    ensures forall i, j :: 0 <= i < |rows| && 0 <= j < |others| && rows[i] == others[j] ==>
      Replay(rows, |rows|)[i].(cancelBy := 0) == Replay(others, |others|)[j].(cancelBy := 0)
    ensures ReadyIds(Replay(rows, |rows|)) == ReadyIds(Replay(others, |others|))
  {
    SameMembers(rows, others);
    forall i, j | 0 <= i < |rows| && 0 <= j < |others| && rows[i] == others[j]
      ensures Replay(rows, |rows|)[i].(cancelBy := 0) == Replay(others, |others|)[j].(cancelBy := 0)
    {
      RecoveryClosedForm(rows, i);
      RecoveryClosedForm(others, j);
    }
    ReadyIdsWithin(rows, others);
    ReadyIdsWithin(others, rows);
  }

  /** A job none of whose tasks is done is the same before and after Init. */
  lemma {:induction false} NothingToReplay(rows: seq<Task>, n: nat)
    requires n <= |rows| && forall i :: 0 <= i < |rows| ==> !rows[i].status.IsDone()
    ensures Replay(rows, n) == rows
  {
    if n == 0 {
    } else {
      NothingToReplay(rows, n - 1);
    }
  }

  // ---------- The job object ----------

  ghost function ValuesOf(tasks: seq<DbTask>): (ts: seq<Task>)
    reads tasks
    ensures |ts| == |tasks| && forall i :: 0 <= i < |tasks| ==> ts[i] == tasks[i].Value()
  {
    seq(|tasks|, i requires 0 <= i < |tasks| reads tasks => tasks[i].Value())
  }

  class BaseJob {
    const id: Uuid
    const tasks: seq<DbTask>

    constructor (id: Uuid, tasks: seq<DbTask>)
      ensures this.id == id && this.tasks == tasks
    {
      this.id, this.tasks := id, tasks;
    }

    method IsFailed() returns (failed: bool)
      ensures failed <==> exists t :: t in ValuesOf(tasks) && t.status.IsFailed()
    {
      for i := 0 to |tasks|
        invariant forall k :: 0 <= k < i ==> !tasks[k].status.IsFailed()
      {
        if tasks[i].status.IsFailed() {
          assert ValuesOf(tasks)[i] in ValuesOf(tasks);
          return true;
        }
      }
      return false;
    }

    method IsDone() returns (done: bool)
      ensures done <==> AllDone(ValuesOf(tasks))
    {
      for i := 0 to |tasks|
        invariant forall k :: 0 <= k < i ==> tasks[k].status.IsDone()
      {
        if !tasks[i].status.IsDone() {
          return false;
        }
      }
      return true;
    }

    method OnTaskDone(doneTask: DbTask) returns (ready: seq<DbTask>)
      requires NoDuplicates(tasks)
      modifies tasks
      ensures ValuesOf(tasks) == NotifyAll(old(ValuesOf(tasks)), doneTask.id, old(doneTask.status.IsFailed()))
      ensures ready == Chosen(tasks, Wakers(old(ValuesOf(tasks)), doneTask.id, old(doneTask.status.IsFailed())))
    {
      ready := [];
      var failed := doneTask.status.IsFailed();
      ghost var before := ValuesOf(tasks);
      ghost var flags := Wakers(before, doneTask.id, failed);
      for i := 0 to |tasks|
        invariant forall k :: 0 <= k < i ==> tasks[k].Value() == Notify(before[k], doneTask.id, failed)
        invariant forall k :: i <= k < |tasks| ==> tasks[k].Value() == before[k]
        invariant ready == Chosen(tasks[..i], flags[..i])
      {
        ChosenOneMore(tasks, flags, i);
        var wakes := Tell(tasks[i], doneTask.id, failed);
        if wakes {
          ready := ready + [tasks[i]];
        }
      }
      assert tasks[..|tasks|] == tasks && flags[..|tasks|] == flags;
    }

    /** One round of the loops of OnTaskDone. */
    method Tell(task: DbTask, id: Uuid, failed: bool) returns (wakes: bool)
      modifies task
      ensures task.Value() == Notify(old(task.Value()), id, failed)
      ensures wakes <==> WakesUp(old(task.Value()), id, failed)
    {
      if failed {
        wakes := task.DependsFailed(id);
      } else {
        wakes := task.DependsDone(id);
      }
    }

    method Init()
      requires NoDuplicates(tasks)
      modifies tasks
      ensures ValuesOf(tasks) == Replay(old(ValuesOf(tasks)), |tasks|)
    {
      ghost var rows := ValuesOf(tasks);
      for i := 0 to |tasks|
        invariant ValuesOf(tasks) == Replay(rows, i)
      {
        ghost var r := Replay(rows, i);
        assert r[i] == tasks[i].Value();
        if tasks[i].status.IsDone() {
          var _ := OnTaskDone(tasks[i]);
          assert ValuesOf(tasks) == NotifyAll(r, r[i].id, r[i].status.IsFailed());
        }
        assert Replay(rows, i + 1) ==
               if r[i].status.IsDone() then NotifyAll(r, r[i].id, r[i].status.IsFailed()) else r;
      }
    }

    method ReadyToRun() returns (ready: seq<DbTask>)
      ensures ready == Chosen(tasks, Readiness(ValuesOf(tasks)))
    {
      ready := [];
      ghost var flags := Readiness(ValuesOf(tasks));
      for i := 0 to |tasks|
        invariant ready == Chosen(tasks[..i], flags[..i])
      {
        ChosenOneMore(tasks, flags, i);
        var isReady := tasks[i].IsReadyToRun();
        if isReady {
          ready := ready + [tasks[i]];
        }
      }
      assert tasks[..|tasks|] == tasks && flags[..|tasks|] == flags;
    }
  }

  /** recoverJob on the rows the query returned: no job is sent when they are all done. */
  method RecoverJob(jobId: Uuid, rows: seq<Task>) returns (job: BaseJob?)
    requires forall i :: 0 <= i < |rows| ==> rows[i].IsFresh()
    ensures job == null <==> jobId == 0 || AllDone(rows)
    ensures job != null ==>
      && fresh(job) && fresh(job.tasks) && NoDuplicates(job.tasks) && job.id == jobId
      && ValuesOf(job.tasks) == Replay(rows, |rows|)
  {
    if jobId == 0 {
      return null;
    }
    var tasks: seq<DbTask> := [];
    for i := 0 to |rows|
      invariant |tasks| == i && fresh(tasks) && NoDuplicates(tasks)
      invariant forall k :: 0 <= k < i ==> tasks[k].Value() == rows[k]
    {
      var task := new DbTask(rows[i].id, rows[i].jobId, rows[i].dependsOn, rows[i].status);
      tasks := tasks + [task];
    }
    var job_ := new BaseJob(jobId, tasks);
    assert ValuesOf(job_.tasks) == rows;
    var done := job_.IsDone();
    if done {
      return null;
    }
    job_.Init();
    return job_;
  }
}
