/**
 * The dependency state of one task: BaseTaskDependency of internal/job/task.go together with
 * the status predicates that DbTask (internal/handler/db_task/db_task.go) gives it.
 */
module Tasks {
  import opened Sequences

  /** uuid.UUID; 0 stands for uuid.Nil. */
  type Uuid = nat

  datatype Status = Pending | Running | Cancelling | Completed | Failed | Cancelled {
    predicate IsDone() {
      Completed? || Failed? || Cancelled?
    }

    predicate IsFailed() {
      Failed? || Cancelled?
    }

    /** A worker only moves a task forward: done statuses absorb. */
    function Rank(): nat {
      if IsDone() then 2 else if Pending? then 0 else 1
    }
  }

  /** A snapshot of a task and of its dependency state. */
  datatype Task = Task(id: Uuid, jobId: Uuid, dependsOn: seq<Uuid>, status: Status,
                       live: seq<Uuid>, cancelling: bool, cancelBy: Uuid) {
    predicate IsReadyToRun() {
      !status.IsDone() && (live == [] || cancelling)
    }

    predicate IsCancelling() {
      !status.IsDone() && cancelling
    }

    /** NewBaseTaskDependency: nothing has been heard from the dependencies yet. */
    predicate IsFresh() {
      live == dependsOn && !cancelling && cancelBy == 0
    }
  }

  /** What a task becomes when it hears that task id is done. */
  function Notify(t: Task, id: Uuid, failed: bool): Task {
    if t.status.IsDone() || id !in t.live then t
    else if failed then t.(live := RemoveFirst(t.live, id), cancelling := true, cancelBy := id)
    else t.(live := RemoveFirst(t.live, id))
  }

  /** Whether hearing that task id is done makes the job dispatch the task. */
  predicate WakesUp(t: Task, id: Uuid, failed: bool) {
    && !t.status.IsDone()
    && id in t.live
    && (failed || |t.live| == 1)
  }

  lemma {:induction false} RemoveFirstLength(xs: seq<Uuid>, id: Uuid)
    requires id in xs
    ensures |RemoveFirst(xs, id)| == |xs| - 1
  {
    if xs[0] == id {
    } else {
      assert id in xs[1..];
      RemoveFirstLength(xs[1..], id);
    }
  }

  /** A waiting task wakes up exactly when the notification makes it ready. */
  lemma WakesUpWhenReady(t: Task, id: Uuid, failed: bool)
    requires !t.IsReadyToRun()
    ensures WakesUp(t, id, failed) <==> Notify(t, id, failed).IsReadyToRun()
  {
    if id in t.live {
      RemoveFirstLength(t.live, id);
    }
  }

  /** The task object: workers write its status, its job writes the dependency state. */
  class DbTask {
    const id: Uuid
    const jobId: Uuid
    const dependsOn: seq<Uuid>
    var status: Status
    var liveDependsOn: seq<Uuid>
    var cancelling: bool
    var cancelBy: Uuid

    constructor (id: Uuid, jobId: Uuid, dependsOn: seq<Uuid>, status: Status)
      ensures Value() == Task(id, jobId, dependsOn, status, dependsOn, false, 0)
    {
      this.id, this.jobId, this.dependsOn, this.status := id, jobId, dependsOn, status;
      liveDependsOn, cancelling, cancelBy := dependsOn, false, 0;
    }

    ghost function Value(): Task
      reads this
    {
      Task(id, jobId, dependsOn, status, liveDependsOn, cancelling, cancelBy)
    }

    method RemoveDependsOn(taskId: Uuid) returns (found: bool)
      modifies this`liveDependsOn
      ensures found <==> taskId in old(liveDependsOn)
      ensures liveDependsOn == RemoveFirst(old(liveDependsOn), taskId)
    {
      for i := 0 to |liveDependsOn|
        invariant liveDependsOn == old(liveDependsOn)
        invariant taskId !in liveDependsOn[..i]
      {
        if liveDependsOn[i] == taskId {
          RemoveFirstAt(liveDependsOn, i);
          liveDependsOn := liveDependsOn[..i] + liveDependsOn[i + 1..];
          return true;
        }
      }
      assert liveDependsOn[..|liveDependsOn|] == liveDependsOn;
      RemoveFirstMissing(liveDependsOn, taskId);
      return false;
    }

    method DependsDone(taskId: Uuid) returns (ready: bool)
      modifies this`liveDependsOn
      ensures Value() == Notify(old(Value()), taskId, false)
      ensures ready <==> WakesUp(old(Value()), taskId, false)
    {
      if status.IsDone() {
        return false;
      }
      var found := RemoveDependsOn(taskId);
      if found {
        RemoveFirstLength(old(liveDependsOn), taskId);
        return |liveDependsOn| == 0;
      }
      RemoveFirstMissing(old(liveDependsOn), taskId);
      return false;
    }

    method DependsFailed(taskId: Uuid) returns (ready: bool)
      modifies this`liveDependsOn, this`cancelling, this`cancelBy
      ensures Value() == Notify(old(Value()), taskId, true)
      ensures ready <==> WakesUp(old(Value()), taskId, true)
    {
      if status.IsDone() {
        return false;
      }
      var found := RemoveDependsOn(taskId);
      if found {
        cancelling := true;
        cancelBy := taskId;
        return true;
      }
      RemoveFirstMissing(old(liveDependsOn), taskId);
      return false;
    }

    method IsReadyToRun() returns (ready: bool)
      ensures ready <==> Value().IsReadyToRun()
    {
      if status.IsDone() {
        return false;
      }
      return |liveDependsOn| == 0 || cancelling;
    }

    /** DbTask.Cancel, less the row write whose error it ignores. */
    method Cancel()
      modifies this`status
      ensures Value() == old(Value()).(status := Cancelled)
    {
      status := Cancelled;
    }
  }
}
