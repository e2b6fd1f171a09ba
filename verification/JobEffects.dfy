/**
 * What the job handler does with a job that arrives and a task that comes back, told by statuses and lists, in every
 * reachable state of the machine in JobHandling.
 */
module JobEffects {
  import opened Sequences
  import opened Tasks
  import opened JobHandling

  predicate Over(status: Status) {
    status == Completed || status == Failed || status == Cancelled
  }

  /** The task is still waiting to hear of id. */
  predicate WaitsFor(t: Task, id: Uuid) {
    !Over(t.status) && id in t.live
  }

  /** What the task k makes of the news of id: those that wait for it strike it off, the bad news makes them cancel. */
  ghost predicate Hears(s: State, id: Uuid, bad: bool, k: Uuid, s': State)
    requires k in s.tasks && k in s'.tasks
  {
    var u, v := s.tasks[k], s'.tasks[k];
    if !WaitsFor(u, id) then v == u
    else
      && v == u.(live := v.live, cancelling := u.cancelling || bad, cancelBy := if bad then id else u.cancelBy)
      && forall d :: d in v.live <==> d in u.live && d != id
  }

  /** It is dispatched once more if that was bad news, or the last it waited for. */
  ghost predicate Dispatched(s: State, id: Uuid, bad: bool, k: Uuid, s': State)
    requires k in s.tasks
  {
    var more := if WaitsFor(s.tasks[k], id) && (bad || forall d :: d in s.tasks[k].live ==> d == id) then 1 else 0;
    s'.inFlight[k] == s.inFlight[k] + more && s'.past.dispatched[k] == s.past.dispatched[k] + more
  }

  /** A task comes back: refused if neither over nor told to cancel; otherwise it is over, and its job hears of it. */
  ghost predicate Returned(s: State, id: Uuid, s': State)
    requires id in s.tasks
  {
    var t := s.tasks[id];
    var last := if Over(t.status) then t.status else Cancelled;
    var bad := last != Completed;
    if !Over(t.status) && !t.cancelling then s' == s.(inFlight := s.inFlight - multiset{id})
    else
      && s'.tasks.Keys == s.tasks.Keys && s'.tasks[id] == t.(status := last)
      && (forall k {:trigger Hears(s, id, bad, k, s')} :: k in s.tasks && k != id ==> Hears(s, id, bad, k, s'))
      && (forall k {:trigger Dispatched(s, id, bad, k, s')} ::
            k in s.tasks && k != id ==> Dispatched(s, id, bad, k, s'))
      && DropsOver(s, t.jobId, s')
  }

  /** Some task of the list is not over. */
  ghost predicate HasMore(s: State, members: seq<Uuid>) {
    exists m :: m in members && m in s.tasks && !Over(s.tasks[m].status)
  }

  /** The job goes exactly if all its tasks are over, no other does. */
  ghost predicate DropsOver(s: State, jobId: Uuid, s': State) {
    && (forall j :: j in s'.jobs <==> j in s.jobs && (j == jobId ==> HasMore(s', s.jobs[j])))
    && (forall j :: j in s'.jobs ==> s'.jobs[j] == s.jobs[j])
  }

  lemma {:induction false} LastOne(live: seq<Uuid>, id: Uuid)
    requires NoDuplicates(live) && id in live
    ensures |live| == 1 <==> forall d :: d in live ==> d == id
    ensures forall d :: d in RemoveFirst(live, id) <==> d in live && d != id
  {
    if |live| > 1 {
      assert live[0] in live && live[1] in live;
    }
    RemoveFirstOfOnce(live, id);
  }

  lemma {:induction false} RemoveFirstOfOnce(xs: seq<Uuid>, x: Uuid)
    requires NoDuplicates(xs)
    ensures forall d :: d in RemoveFirst(xs, x) <==> d in xs && d != x
  {
    if xs == [] {
    } else {
      RemoveFirstOfOnce(xs[1..], x);
      assert xs == [xs[0]] + xs[1..];
      assert xs[0] !in xs[1..];
    }
  }

  /** A task that waits is of the job, which is held, and lists what it waits for once. */
  lemma WaiterIsHeld(s: State, id: Uuid, k: Uuid)
    requires Tidy(s) && CanProcess(s, id) && k in s.tasks && k != id && WaitsFor(s.tasks[k], id)
    ensures s.tasks[id].jobId in s.jobs && k in s.jobs[s.tasks[id].jobId]
    ensures NoDuplicates(s.tasks[k].live)
  {
    assert TaskOk(s, k);
    WithoutMembers(s.tasks[k].dependsOn, s.past.processed);
    NotConcerned(s, id, k);
    WithoutOnce(s.tasks[k].dependsOn, s.past.processed);
  }

  lemma {:induction false} WithoutOnce(xs: seq<Uuid>, gone: set<Uuid>)
    requires NoDuplicates(xs)
    ensures NoDuplicates(Without(xs, gone))
  {
    if xs == [] {
    } else {
      WithoutOnce(xs[1..], gone);
      WithoutMembers(xs[1..], gone);
      assert xs[0] !in xs[1..];
    }
  }

  lemma OneHears(s: State, id: Uuid, bad: bool, k: Uuid, s': State)
    requires Stepping(s, id, s') && k in s.tasks && k != id
    requires bad == Settled(s.tasks[id]).status.IsFailed()
    ensures Hears(s, id, bad, k, s') && Dispatched(s, id, bad, k, s')
  {
    if WaitsFor(s.tasks[k], id) {
      WaiterIsHeld(s, id, k);
      LastOne(s.tasks[k].live, id);
    }
    assert s'.inFlight[k] == s.inFlight[k] + if Wakes(s, id, k) then 1 else 0;
    assert s'.past.dispatched[k] == s.past.dispatched[k] + if Wakes(s, id, k) then 1 else 0;
  }

  // ---------- Main results ----------

  /** The return of any task in any reachable state. */
  lemma ReturnEffect(run: seq<Event>, id: Uuid)
    requires IsRun(run) && Enabled(After(run), Process(id))
    ensures Returned(After(run), id, Apply(After(run), Process(id)))
  {
    var s := After(run);
    ReachableInv(run);
    ProcessTaskStep(s, id);
    if CanProcess(s, id) {
      ReturnedBy(s, id, ProcessTask(s, id));
    }
  }

  lemma ReturnedBy(s: State, id: Uuid, s': State)
    requires Stepping(s, id, s')
    ensures Returned(s, id, s')
  {
    var t := s.tasks[id];
    var bad := (if Over(t.status) then t.status else Cancelled) != Completed;
    LastStatus(s, id, s');
    JobDropped(s, id, s');
    forall k {:trigger Hears(s, id, bad, k, s')} {:trigger Dispatched(s, id, bad, k, s')} | k in s.tasks && k != id
      ensures Hears(s, id, bad, k, s') && Dispatched(s, id, bad, k, s')
    {
      OneHears(s, id, bad, k, s');
    }
  }

  lemma LastStatus(s: State, id: Uuid, s': State)
    requires Stepping(s, id, s')
    ensures var t := s.tasks[id]; var last := if Over(t.status) then t.status else Cancelled;
      s'.tasks.Keys == s.tasks.Keys && s'.tasks[id] == t.(status := last) == Settled(t)
  {
  }

  lemma JobDropped(s: State, id: Uuid, s': State)
    requires Stepping(s, id, s')
    ensures DropsOver(s, s.tasks[id].jobId, s')
  {
    forall j | j in s.jobs
      ensures Finished(s'.tasks, s.jobs[j]) <==> !HasMore(s', s.jobs[j])
    {
      assert forall m :: m in s'.tasks ==> (Over(s'.tasks[m].status) <==> s'.tasks[m].status.IsDone());
    }
  }

  /** The arrival of any job in any reachable state: held once, and every task that need not wait dispatched. */
  lemma AddEffect(run: seq<Event>, e: Event, k: Uuid)
    requires IsRun(run) && e.Add? && Enabled(After(run), e)
    ensures var s, s' := After(run), Apply(After(run), e);
      if e.jobId in s.jobs then s' == s
      else
        var now := k in e.newTasks && !Over(e.newTasks[k].status)
                   && (e.newTasks[k].live == [] || e.newTasks[k].cancelling);
        && s'.tasks == s.tasks + e.newTasks && s'.jobs == s.jobs[e.jobId := e.members]
        && s'.inFlight[k] == s.inFlight[k] + (if now then 1 else 0)
        && s'.past.dispatched[k] == s.past.dispatched[k] + if now then 1 else 0
  {
  }
}
