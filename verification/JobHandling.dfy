/**
 * The scheduler as a state machine (internal/job/job_handler.go): a job is added, a worker moves the
 * status of a dispatched task, and a dispatched task that comes back is processed. Channels are a bag.
 */
module JobHandling {
  import opened Sequences
  import opened Tasks
  import opened Jobs

  /** What happened so far; no step reads it. */
  datatype History = History(
    processed: set<Uuid>,        // tasks whose completion has been announced to their job
    dispatched: multiset<Uuid>,  // every dispatch ever made
    alone: set<Uuid>,            // tasks that failed although they were not cancelling
    arrivedDone: set<Uuid>,      // tasks already done when their job was added
    stillborn: set<Uuid>)        // jobs with nothing left to do when they were added

  datatype State = State(
    tasks: map<Uuid, Task>,      // every task ever handed over
    jobs: map<Uuid, seq<Uuid>>,  // JobHandler.jobs: the jobs held, with their task lists
    inFlight: multiset<Uuid>,    // dispatched and not yet processed
    past: History)

  const INITIAL := State(map[], map[], multiset{}, History({}, multiset{}, {}, {}, {}))

  datatype Event =
    | Add(jobId: Uuid, members: seq<Uuid>, newTasks: map<Uuid, Task>, alone: set<Uuid>)
    | Work(id: Uuid, status: Status)
    | Process(id: Uuid)

  // ---------- Steps ----------

  function DoneOf(tasks: map<Uuid, Task>): set<Uuid> {
    set k | k in tasks && tasks[k].status.IsDone()
  }

  function FailedOf(tasks: map<Uuid, Task>): set<Uuid> {
    set k | k in tasks && tasks[k].status.IsFailed()
  }

  function ReadyOf(tasks: map<Uuid, Task>): set<Uuid> {
    set k | k in tasks && tasks[k].IsReadyToRun()
  }

  /** What the arrival of a job adds to the history. */
  function Arrival(past: History, jobId: Uuid, members: seq<Uuid>, newTasks: map<Uuid, Task>, alone: set<Uuid>): History
  {
    past.(alone := past.alone + alone,
          processed := past.processed + DoneOf(newTasks),
          arrivedDone := past.arrivedDone + DoneOf(newTasks),
          stillborn := if Finished(newTasks, members) then past.stillborn + {jobId} else past.stillborn - {jobId})
  }

  /** addJob: keep the job and dispatch what is ready. The set alone only feeds the history. */
  function AddJob(s: State, jobId: Uuid, members: seq<Uuid>, newTasks: map<Uuid, Task>, alone: set<Uuid>): State {
    if jobId in s.jobs then s  // ErrJobAlreadyExist
    else
      var ready := multiset(ReadyOf(newTasks));
      State(s.tasks + newTasks, s.jobs[jobId := members], s.inFlight + ready,
            Arrival(s.past, jobId, members, newTasks, alone).(dispatched := s.past.dispatched + ready))
  }

  /** A worker, holding a dispatched task, gives it a new status. */
  function WorkOn(s: State, id: Uuid, status: Status): State
    requires id in s.tasks
  {
    var t := s.tasks[id];
    s.(tasks := s.tasks[id := t.(status := status)],
       past := if status.IsFailed() && !t.cancelling then s.past.(alone := s.past.alone + {id}) else s.past)
  }

  /** processCancellingTask, for a task that comes back cancelling. */
  function Settled(t: Task): Task {
    if t.IsCancelling() then t.(status := Cancelled) else t
  }

  function Announce(tasks: map<Uuid, Task>, members: seq<Uuid>, id: Uuid, failed: bool): map<Uuid, Task> {
    map k | k in tasks :: if k in members then Notify(tasks[k], id, failed) else tasks[k]
  }

  function Woken(tasks: map<Uuid, Task>, members: seq<Uuid>, id: Uuid, failed: bool): set<Uuid> {
    set k | k in tasks && k in members && WakesUp(tasks[k], id, failed)
  }

  predicate Finished(tasks: map<Uuid, Task>, members: seq<Uuid>) {
    forall m :: m in members && m in tasks ==> tasks[m].status.IsDone()
  }

  /** processTask: cancel if asked to, then announce the completion and drop a finished job. */
  function ProcessTask(s: State, id: Uuid): State
    requires id in s.tasks
  {
    var t := Settled(s.tasks[id]);
    var s1 := s.(tasks := s.tasks[id := t], inFlight := s.inFlight - multiset{id});
    if !t.status.IsDone() then s1  // ErrNotSupportedTaskStatus
    else
      var s2 := s1.(past := s1.past.(processed := s1.past.processed + {id}));
      if t.jobId !in s.jobs then s2  // ErrJobNotFound
      else
        var members := s.jobs[t.jobId];
        var failed := t.status.IsFailed();
        var woken := multiset(Woken(s1.tasks, members, id, failed));
        var tasks := Announce(s1.tasks, members, id, failed);
        State(tasks,
              if Finished(tasks, members) then s.jobs - {t.jobId} else s.jobs,
              s1.inFlight + woken,
              s2.past.(dispatched := s2.past.dispatched + woken))
  }

  // ---------- Which steps can be taken ----------

  /** Some task of the group depends on no task of the group. */
  ghost predicate HasRoot(tasks: map<Uuid, Task>, group: set<Uuid>) {
    exists x :: x in group && x in tasks && forall d :: d in tasks[x].dependsOn ==> d !in group
  }

  ghost predicate Acyclic(tasks: map<Uuid, Task>) {
    forall group: set<Uuid> {:trigger HasRoot(tasks, group)} ::
      group != {} && group <= tasks.Keys ==> HasRoot(tasks, group)
  }

  /** A task as it is when its job is added: fresh, or rebuilt by Init from the finished tasks of the job. */
  ghost predicate Primed(t: Task, done: set<Uuid>, failed: set<Uuid>) {
    if t.status.IsDone() then t.live == t.dependsOn && !t.cancelling
    else
      && t.live == Without(t.dependsOn, done)
      && (t.cancelling <==> exists d :: d in t.dependsOn && d in failed)
  }

  ghost predicate NewTaskOk(jobId: Uuid, id: Uuid, newTasks: map<Uuid, Task>)
    requires id in newTasks
  {
    var t := newTasks[id];
    && t.id == id && t.jobId == jobId
    && NoDuplicates(t.dependsOn)
    && (forall d :: d in t.dependsOn ==> d in newTasks)
    && Primed(t, DoneOf(newTasks), FailedOf(newTasks))
  }

  /** The ids of new tasks are new. */
  ghost predicate WellFormedJob(s: State, jobId: Uuid, members: seq<Uuid>, newTasks: map<Uuid, Task>) {
    && (forall id :: id in members <==> id in newTasks)
    && NoDuplicates(members)
    && (forall id :: id in newTasks ==> NewTaskOk(jobId, id, newTasks) && id !in s.tasks)
  }

  /** A worker only touches a task dispatched to it, and only moves it forward. */
  predicate CanWork(s: State, id: Uuid, status: Status) {
    id in s.tasks && id in s.inFlight && s.tasks[id].status.Rank() < status.Rank()
  }

  /** Whatever its worker made of it, a dispatched task comes back. */
  predicate CanReturn(s: State, id: Uuid) {
    id in s.tasks && id in s.inFlight
  }

  /** It comes back done or cancelling, so that it can be announced; the code does not see to that. */
  predicate CanProcess(s: State, id: Uuid) {
    CanReturn(s, id) && (s.tasks[id].status.IsDone() || s.tasks[id].cancelling)
  }

  ghost predicate Enabled(s: State, e: Event) {
    match e
    case Add(jobId, members, newTasks, _) =>
      jobId !in s.jobs ==> WellFormedJob(s, jobId, members, newTasks) && Acyclic(newTasks)
    case Work(id, status) => CanWork(s, id, status)
    case Process(id) => CanReturn(s, id)
  }

  function Apply(s: State, e: Event): State
    requires !e.Add? ==> e.id in s.tasks
  {
    match e
    case Add(jobId, members, newTasks, alone) => AddJob(s, jobId, members, newTasks, alone)
    case Work(id, status) => WorkOn(s, id, status)
    case Process(id) => ProcessTask(s, id)
  }

  // ---------- The invariant ----------

  /** Some dependency that is no longer live has failed or was cancelled. */
  ghost predicate HeardFailure(s: State, t: Task) {
    exists d :: d in t.dependsOn && d !in t.live && d in s.tasks && s.tasks[d].status.IsFailed()
  }

  ghost predicate TaskOk(s: State, id: Uuid)
    requires id in s.tasks
  {
    var t := s.tasks[id];
    && t.id == id
    && NoDuplicates(t.dependsOn)
    && (forall d :: d in t.dependsOn ==> d in s.tasks && s.tasks[d].jobId == t.jobId)
    // A dependency that is no longer live has been announced, and the bad ones made the task cancelling.
    && (forall d :: d in t.dependsOn && d !in t.live ==> d in s.past.processed)
    && (t.cancelling <==> HeardFailure(s, t))
    // An unfinished task is held by its job, and its live list is what has not been announced.
    && (!t.status.IsDone() ==>
          && t.live == Without(t.dependsOn, s.past.processed)
          && t.jobId in s.jobs && id in s.jobs[t.jobId]
          && forall d :: d in t.dependsOn ==> d in s.jobs[t.jobId])
    // A cancelling task is in flight, and an unfinished task in flight is ready.
    && (t.IsCancelling() ==> id in s.inFlight)
    && (!t.status.IsDone() && id in s.inFlight ==> t.IsReadyToRun())
    // A finished task is on its way back or has been announced.
    && (t.status.IsDone() && id !in s.inFlight ==> id in s.past.processed)
    && (id in s.past.processed ==> t.status.IsDone())
  }

  ghost predicate HasWork(s: State, members: seq<Uuid>) {
    exists m :: m in members && m in s.tasks && (m in s.inFlight || !s.tasks[m].status.IsDone())
  }

  ghost predicate JobOk(s: State, jobId: Uuid)
    requires jobId in s.jobs
  {
    && (forall m :: m in s.jobs[jobId] ==> m in s.tasks && s.tasks[m].jobId == jobId)
    && (jobId !in s.past.stillborn ==> HasWork(s, s.jobs[jobId]))
  }

  /** Everything but acyclicity, which no step touches. */
  ghost predicate Tidy(s: State) {
    && (forall id {:trigger TaskOk(s, id)} :: id in s.tasks ==> TaskOk(s, id))
    && (forall jobId {:trigger JobOk(s, jobId)} :: jobId in s.jobs ==> JobOk(s, jobId))
    && (forall id :: id in s.inFlight ==> id in s.tasks)
    && s.past.processed <= s.tasks.Keys
  }

  ghost predicate Inv(s: State) {
    Tidy(s) && Acyclic(s.tasks)
  }

  /** Ready, and nobody is going to send it back. */
  predicate Stuck(s: State, id: Uuid)
    requires id in s.tasks
  {
    s.tasks[id].IsReadyToRun() && id !in s.inFlight
  }

  ghost predicate HasStuck(s: State, jobId: Uuid) {
    exists id :: id in s.tasks && s.tasks[id].jobId == jobId && Stuck(s, id)
  }

  // ---------- Adding a job ----------

  lemma SameGraphAcyclic(a: map<Uuid, Task>, b: map<Uuid, Task>)
    requires Acyclic(a) && a.Keys == b.Keys
    requires forall id :: id in a ==> a[id].dependsOn == b[id].dependsOn
    ensures Acyclic(b)
  {
    forall group: set<Uuid> | group != {} && group <= b.Keys
      ensures HasRoot(b, group)
    {
      assert HasRoot(a, group);
      var x :| x in group && x in a && forall d :: d in a[x].dependsOn ==> d !in group;
      assert x in b && b[x].dependsOn == a[x].dependsOn;
    }
  }

  lemma RootOf(tasks: map<Uuid, Task>, group: set<Uuid>) returns (x: Uuid)
    requires Acyclic(tasks) && group != {} && group <= tasks.Keys
    ensures x in group && x in tasks && forall d :: d in tasks[x].dependsOn ==> d !in group
  {
    assert HasRoot(tasks, group);
    x :| x in group && x in tasks && forall d :: d in tasks[x].dependsOn ==> d !in group;
  }

  ghost predicate DependsWithin(tasks: map<Uuid, Task>, id: Uuid)
    requires id in tasks
  {
    forall d :: d in tasks[id].dependsOn ==> d in tasks
  }

  lemma {:induction false} UnionAcyclic(before: map<Uuid, Task>, added: map<Uuid, Task>)
    requires Acyclic(before) && Acyclic(added) && before.Keys !! added.Keys
    requires forall id :: id in added ==> DependsWithin(added, id)
    ensures Acyclic(before + added)
  {
    var all := before + added;
    forall group: set<Uuid> | group != {} && group <= all.Keys
      ensures HasRoot(all, group)
    {
      var inner := group * added.Keys;
      if inner != {} {
        assert inner <= added.Keys;
        var x := RootOf(added, inner);
        assert all[x] == added[x];
        assert DependsWithin(added, x);
        assert x in group && x in all && forall d :: d in all[x].dependsOn ==> d !in group;
      } else {
        forall k | k in group
          ensures k in before && all[k] == before[k]
        {
          assert k !in inner;
        }
        var x := RootOf(before, group);
        assert x in group && x in all && forall d :: d in all[x].dependsOn ==> d !in group;
      }
    }
  }

  lemma AddedTaskOk(s: State, jobId: Uuid, members: seq<Uuid>, newTasks: map<Uuid, Task>, alone: set<Uuid>, id: Uuid)
    requires Tidy(s) && WellFormedJob(s, jobId, members, newTasks) && jobId !in s.jobs && id in newTasks
    ensures id in AddJob(s, jobId, members, newTasks, alone).tasks
    ensures TaskOk(AddJob(s, jobId, members, newTasks, alone), id)
  {
    var s' := AddJob(s, jobId, members, newTasks, alone);
    var t := newTasks[id];
    assert NewTaskOk(jobId, id, newTasks);
    assert forall d :: d in t.dependsOn ==> NewTaskOk(jobId, d, newTasks) && d !in s.tasks;
    assert s'.tasks[id] == t;
    WithoutMembers(t.dependsOn, DoneOf(newTasks));
    WithoutSame(t.dependsOn, DoneOf(newTasks), s'.past.processed);
  }

  lemma OldTaskOk(s: State, jobId: Uuid, members: seq<Uuid>, newTasks: map<Uuid, Task>, alone: set<Uuid>, id: Uuid)
    requires Tidy(s) && WellFormedJob(s, jobId, members, newTasks) && jobId !in s.jobs && id in s.tasks
    ensures TaskOk(AddJob(s, jobId, members, newTasks, alone), id)
  {
    var s' := AddJob(s, jobId, members, newTasks, alone);
    assert TaskOk(s, id);
    assert forall k :: k in s.tasks ==> s'.tasks[k] == s.tasks[k];
    WithoutSame(s.tasks[id].dependsOn, s.past.processed, s'.past.processed);
  }

  lemma AddKeepsJob(s: State, jobId: Uuid, members: seq<Uuid>, newTasks: map<Uuid, Task>, alone: set<Uuid>, j: Uuid)
    requires Tidy(s) && WellFormedJob(s, jobId, members, newTasks) && jobId !in s.jobs
    requires j == jobId || j in s.jobs
    ensures JobOk(AddJob(s, jobId, members, newTasks, alone), j)
  {
    var s' := AddJob(s, jobId, members, newTasks, alone);
    if j == jobId {
      if j !in s'.past.stillborn {
        var m :| m in members && m in newTasks && !newTasks[m].status.IsDone();
        assert m in s'.jobs[j] && m in s'.tasks && s'.tasks[m] == newTasks[m];
      }
      forall k | k in members
        ensures k in s'.tasks && s'.tasks[k].jobId == jobId
      {
        assert NewTaskOk(jobId, k, newTasks);
      }
    } else if j !in s.past.stillborn {
      assert JobOk(s, j);
      assert forall k :: k in s.tasks ==> s'.tasks[k] == s.tasks[k];
      var m :| m in s.jobs[j] && m in s.tasks && (m in s.inFlight || !s.tasks[m].status.IsDone());
      assert m in s'.jobs[j] && m in s'.tasks;
    } else {
      assert JobOk(s, j);
    }
  }

  lemma AddKeepsInv(s: State, jobId: Uuid, members: seq<Uuid>, newTasks: map<Uuid, Task>, alone: set<Uuid>)
    requires Inv(s) && (jobId !in s.jobs ==> WellFormedJob(s, jobId, members, newTasks) && Acyclic(newTasks))
    ensures Inv(AddJob(s, jobId, members, newTasks, alone))
  {
    if jobId !in s.jobs {
      var s' := AddJob(s, jobId, members, newTasks, alone);
      forall id | id in s'.tasks
        ensures TaskOk(s', id)
      {
        if id in newTasks {
          AddedTaskOk(s, jobId, members, newTasks, alone, id);
        } else {
          OldTaskOk(s, jobId, members, newTasks, alone, id);
        }
      }
      forall j | j in s'.jobs
        ensures JobOk(s', j)
      {
        AddKeepsJob(s, jobId, members, newTasks, alone, j);
      }
      forall id | id in newTasks
        ensures DependsWithin(newTasks, id)
      {
        assert NewTaskOk(jobId, id, newTasks);
      }
      UnionAcyclic(s.tasks, newTasks);
    }
  }

  // ---------- A worker's step ----------

  lemma WorkedTaskOk(s: State, id: Uuid, status: Status, k: Uuid)
    requires Tidy(s) && CanWork(s, id, status) && k in s.tasks
    ensures TaskOk(WorkOn(s, id, status), k)
  {
    var s' := WorkOn(s, id, status);
    assert TaskOk(s, k) && TaskOk(s, id);
    assert forall j :: j in s.tasks && j != id ==> s'.tasks[j] == s.tasks[j];
    forall d | d in s.tasks[k].dependsOn && d !in s.tasks[k].live
      ensures s'.tasks[d] == s.tasks[d]
    {
      assert TaskOk(s, d);
    }
  }

  lemma WorkKeepsJob(s: State, id: Uuid, status: Status, j: Uuid)
    requires Tidy(s) && CanWork(s, id, status) && j in s.jobs
    ensures JobOk(WorkOn(s, id, status), j)
  {
    var s' := WorkOn(s, id, status);
    assert JobOk(s, j);
    if j !in s.past.stillborn {
      var m :| m in s.jobs[j] && m in s.tasks && (m in s.inFlight || !s.tasks[m].status.IsDone());
      assert m in s'.jobs[j] && m in s'.tasks;
    }
  }

  lemma WorkKeepsTidy(s: State, id: Uuid, status: Status)
    requires Tidy(s) && CanWork(s, id, status)
    ensures Tidy(WorkOn(s, id, status))
  {
    var s' := WorkOn(s, id, status);
    forall k | k in s'.tasks
      ensures TaskOk(s', k)
    {
      WorkedTaskOk(s, id, status, k);
    }
    forall j | j in s'.jobs
      ensures JobOk(s', j)
    {
      WorkKeepsJob(s, id, status, j);
    }
  }

  lemma WorkKeepsGraph(s: State, id: Uuid, status: Status)
    requires Acyclic(s.tasks) && CanWork(s, id, status)
    ensures Acyclic(WorkOn(s, id, status).tasks)
  {
    SameGraphAcyclic(s.tasks, WorkOn(s, id, status).tasks);
  }

  // ---------- Processing a task that came back ----------

  /** What processing the task id does to the task k. */
  function Processed(s: State, id: Uuid, k: Uuid): Task
    requires id in s.tasks && k in s.tasks
  {
    var t := Settled(s.tasks[id]);
    var u := if k == id then t else s.tasks[k];
    if t.status.IsDone() && t.jobId in s.jobs && k in s.jobs[t.jobId] then Notify(u, id, t.status.IsFailed()) else u
  }

  /** Whether processing the task id dispatches the task k. */
  predicate Wakes(s: State, id: Uuid, k: Uuid)
    requires id in s.tasks && k in s.tasks
  {
    var t := Settled(s.tasks[id]);
    t.jobId in s.jobs && k in s.jobs[t.jobId] && WakesUp(s.tasks[k], id, t.status.IsFailed())
  }

  /** ProcessTask, of a task that can be announced, task by task and job by job. */
  ghost predicate ProcessStep(s: State, id: Uuid, s': State)
    requires id in s.tasks
  {
    && s'.tasks.Keys == s.tasks.Keys
    && (forall k :: k in s.tasks ==> s'.tasks[k] == Processed(s, id, k))
    && (forall k {:trigger s'.inFlight[k]} :: k in s.tasks && k != id ==>
          s'.inFlight[k] == s.inFlight[k] + if Wakes(s, id, k) then 1 else 0)
    && (forall k :: k in s'.inFlight ==> k in s.tasks || k in s.inFlight)
    && (forall j :: j in s'.jobs <==>
          j in s.jobs && !(j == s.tasks[id].jobId && Finished(s'.tasks, s.jobs[j])))
    && (forall j :: j in s'.jobs ==> s'.jobs[j] == s.jobs[j])
    && s'.past.processed == s.past.processed + {id}
    && s'.past.stillborn == s.past.stillborn && s'.past.alone == s.past.alone
    && s'.past.arrivedDone == s.past.arrivedDone
    && (forall k {:trigger s'.past.dispatched[k]} :: k in s.tasks && k != id ==>
          s'.past.dispatched[k] == s.past.dispatched[k] + if Wakes(s, id, k) then 1 else 0)
  }

  lemma WokenCount(tasks: map<Uuid, Task>, members: seq<Uuid>, id: Uuid, failed: bool, k: Uuid)
    ensures multiset(Woken(tasks, members, id, failed))[k] ==
            if k in tasks && k in members && WakesUp(tasks[k], id, failed) then 1 else 0
  {
  }

  lemma ProcessTasks(s: State, id: Uuid)
    requires CanProcess(s, id)
    ensures ProcessTask(s, id).tasks.Keys == s.tasks.Keys
    ensures forall k :: k in s.tasks ==> ProcessTask(s, id).tasks[k] == Processed(s, id, k)
    ensures ProcessTask(s, id).past ==
            s.past.(processed := s.past.processed + {id}, dispatched := ProcessTask(s, id).past.dispatched)
  {
  }

  lemma ProcessJobs(s: State, id: Uuid)
    requires CanProcess(s, id)
    ensures forall j :: j in ProcessTask(s, id).jobs <==>
              j in s.jobs && !(j == s.tasks[id].jobId && Finished(ProcessTask(s, id).tasks, s.jobs[j]))
    ensures forall j :: j in ProcessTask(s, id).jobs ==> ProcessTask(s, id).jobs[j] == s.jobs[j]
  {
  }

  lemma ProcessDispatches(s: State, id: Uuid, k: Uuid)
    requires CanProcess(s, id)
    ensures k in s.tasks && k != id ==>
      && ProcessTask(s, id).inFlight[k] == s.inFlight[k] + (if Wakes(s, id, k) then 1 else 0)
      && ProcessTask(s, id).past.dispatched[k] == s.past.dispatched[k] + if Wakes(s, id, k) then 1 else 0
    ensures k in ProcessTask(s, id).inFlight ==> k in s.tasks || k in s.inFlight
  {
    var s', t := ProcessTask(s, id), Settled(s.tasks[id]);
    if t.jobId in s.jobs {
      var members, failed := s.jobs[t.jobId], t.status.IsFailed();
      var tasks1 := s.tasks[id := t];
      var woken := Woken(tasks1, members, id, failed);
      assert s'.inFlight == s.inFlight - multiset{id} + multiset(woken);
      assert s'.past.dispatched == s.past.dispatched + multiset(woken);
      WokenCount(tasks1, members, id, failed, k);
    }
  }

  /** A task that comes back neither done nor cancelling is refused: it is no longer in flight, and that is all. */
  lemma ProcessTaskStep(s: State, id: Uuid)
    requires CanReturn(s, id)
    ensures CanProcess(s, id) ==> ProcessStep(s, id, ProcessTask(s, id))
    ensures !CanProcess(s, id) ==> ProcessTask(s, id) == s.(inFlight := s.inFlight - multiset{id})
  {
    if CanProcess(s, id) {
      ProcessTasks(s, id);
      ProcessJobs(s, id);
      var s' := ProcessTask(s, id);
      forall k
        ensures k in s.tasks && k != id ==>
          && s'.inFlight[k] == s.inFlight[k] + (if Wakes(s, id, k) then 1 else 0)
          && s'.past.dispatched[k] == s.past.dispatched[k] + if Wakes(s, id, k) then 1 else 0
        ensures k in s'.inFlight ==> k in s.tasks || k in s.inFlight
      {
        ProcessDispatches(s, id, k);
      }
    }
  }

  ghost predicate Stepping(s: State, id: Uuid, s': State) {
    Tidy(s) && CanProcess(s, id) && ProcessStep(s, id, s')
  }

  /** An unfinished task outside the job of the announced task does not depend on it. */
  lemma NotConcerned(s: State, id: Uuid, k: Uuid)
    requires Tidy(s) && CanProcess(s, id) && k in s.tasks && k != id
    requires !s.tasks[k].status.IsDone() && id in s.tasks[k].dependsOn
    ensures s.tasks[id].jobId in s.jobs && k in s.jobs[s.tasks[id].jobId]
  {
    assert TaskOk(s, k);
  }

  lemma ProcessedLive(s: State, id: Uuid, k: Uuid)
    requires Tidy(s) && CanProcess(s, id) && k in s.tasks && k != id
    requires !s.tasks[k].status.IsDone()
    ensures Processed(s, id, k).live == Without(s.tasks[k].dependsOn, s.past.processed + {id})
    ensures Processed(s, id, k).cancelling <==>
            s.tasks[k].cancelling || (id in s.tasks[k].live && Settled(s.tasks[id]).status.IsFailed())
  {
    var u := s.tasks[k];
    assert TaskOk(s, k) && TaskOk(s, id);
    WithoutMembers(u.dependsOn, s.past.processed);
    RemoveFirstFromWithout(u.dependsOn, s.past.processed, id);
    if id in u.live {
      NotConcerned(s, id, k);
    } else {
      RemoveFirstMissing(u.live, id);
    }
  }

  /** The statuses of announced tasks do not change any more. */
  lemma AnnouncedStatus(s: State, id: Uuid, d: Uuid)
    requires Tidy(s) && CanProcess(s, id) && d in s.tasks && (d in s.past.processed || d != id)
    ensures Processed(s, id, d).status == s.tasks[d].status
  {
    assert TaskOk(s, d);
  }

  lemma ProcessedDependencies(s: State, id: Uuid, s': State, k: Uuid)
    requires Stepping(s, id, s') && k in s.tasks && k != id && !s.tasks[k].status.IsDone()
    ensures forall d :: d in s'.tasks[k].dependsOn && d !in s'.tasks[k].live ==> d in s'.past.processed
    ensures s'.tasks[k].cancelling <==> HeardFailure(s', s'.tasks[k])
  {
    var t, u := s'.tasks[k], s.tasks[k];
    assert TaskOk(s, k);
    ProcessedLive(s, id, k);
    WithoutMembers(u.dependsOn, s.past.processed);
    WithoutMembers(u.dependsOn, s.past.processed + {id});
    if u.cancelling {
      var d :| d in u.dependsOn && d !in u.live && d in s.tasks && s.tasks[d].status.IsFailed();
      AnnouncedStatus(s, id, d);
      assert HeardFailure(s', t);
    }
    forall d | d in t.dependsOn && d !in t.live && s'.tasks[d].status.IsFailed()
      ensures t.cancelling
    {
      if d != id || d in s.past.processed {
        AnnouncedStatus(s, id, d);
      }
    }
  }

  lemma ProcessedFlight(s: State, id: Uuid, s': State, k: Uuid)
    requires Stepping(s, id, s') && k in s.tasks && k != id && !s.tasks[k].status.IsDone()
    ensures k in s'.inFlight ==> s'.tasks[k].IsReadyToRun()
    ensures s'.tasks[k].IsReadyToRun() ==> k in s'.inFlight || Stuck(s, k)
    ensures s'.tasks[k].IsCancelling() ==> k in s'.inFlight
  {
    var u, failed := s.tasks[k], Settled(s.tasks[id]).status.IsFailed();
    assert TaskOk(s, k);
    assert s'.inFlight[k] == s.inFlight[k] + if Wakes(s, id, k) then 1 else 0;
    if id in u.live {
      WithoutMembers(u.dependsOn, s.past.processed);
      NotConcerned(s, id, k);
      if !u.IsReadyToRun() {
        WakesUpWhenReady(u, id, failed);
      }
    }
  }

  lemma ProcessedDoneTaskOk(s: State, id: Uuid, s': State, k: Uuid)
    requires Stepping(s, id, s') && k in s.tasks && (k == id || s.tasks[k].status.IsDone())
    ensures TaskOk(s', k)
  {
    var u := s.tasks[k];
    assert TaskOk(s, k);
    var t := s'.tasks[k];
    assert t == if k == id then Settled(u) else u;
    forall d | d in u.dependsOn && d !in u.live
      ensures s'.tasks[d].status == s.tasks[d].status
    {
      AnnouncedStatus(s, id, d);
    }
    assert HeardFailure(s', t) <==> HeardFailure(s, u);
    assert k != id ==> s'.inFlight[k] == s.inFlight[k];
  }

  lemma ProcessedPendingTaskOk(s: State, id: Uuid, s': State, k: Uuid)
    requires Stepping(s, id, s') && k in s.tasks && k != id && !s.tasks[k].status.IsDone()
    ensures TaskOk(s', k)
  {
    assert TaskOk(s, k);
    ProcessedLive(s, id, k);
    ProcessedDependencies(s, id, s', k);
    ProcessedFlight(s, id, s', k);
    assert !Finished(s'.tasks, s.jobs[s.tasks[k].jobId]);
  }

  lemma ProcessedJobOk(s: State, id: Uuid, s': State, j: Uuid)
    requires Stepping(s, id, s') && j in s'.jobs
    ensures JobOk(s', j)
  {
    assert JobOk(s, j);
    if j == s.tasks[id].jobId {
      var m :| m in s.jobs[j] && m in s'.tasks && !s'.tasks[m].status.IsDone();
      assert HasWork(s', s'.jobs[j]);
    } else if j !in s.past.stillborn {
      var m :| m in s.jobs[j] && m in s.tasks && (m in s.inFlight || !s.tasks[m].status.IsDone());
      assert s'.inFlight[m] >= s.inFlight[m];
      assert m in s'.jobs[j] && m in s'.tasks && s'.tasks[m].status == s.tasks[m].status;
      assert HasWork(s', s'.jobs[j]);
    }
  }

  lemma ProcessKeepsTidy(s: State, id: Uuid, s': State)
    requires Stepping(s, id, s')
    ensures Tidy(s')
  {
    forall k | k in s'.tasks
      ensures TaskOk(s', k)
    {
      if k == id || s.tasks[k].status.IsDone() {
        ProcessedDoneTaskOk(s, id, s', k);
      } else {
        ProcessedPendingTaskOk(s, id, s', k);
      }
    }
    forall j | j in s'.jobs
      ensures JobOk(s', j)
    {
      ProcessedJobOk(s, id, s', j);
    }
  }

  lemma ProcessKeepsGraph(s: State, id: Uuid, s': State)
    requires Acyclic(s.tasks) && id in s.tasks && ProcessStep(s, id, s')
    ensures Acyclic(s'.tasks)
  {
    SameGraphAcyclic(s.tasks, s'.tasks);
  }

  /** A task that comes back unfinished leaves the invariant as it is. */
  lemma RefusedKeepsTidy(s: State, id: Uuid, s': State)
    requires Tidy(s) && CanReturn(s, id) && !CanProcess(s, id) && s' == s.(inFlight := s.inFlight - multiset{id})
    ensures Tidy(s')
  {
    forall k | k in s'.tasks
      ensures TaskOk(s', k)
    {
      assert TaskOk(s, k);
      assert HeardFailure(s', s'.tasks[k]) <==> HeardFailure(s, s.tasks[k]);
    }
    forall j | j in s'.jobs
      ensures JobOk(s', j)
    {
      assert JobOk(s, j);
      if j !in s.past.stillborn {
        var m :| m in s.jobs[j] && m in s.tasks && (m in s.inFlight || !s.tasks[m].status.IsDone());
        assert m in s'.jobs[j] && m in s'.tasks && (m in s'.inFlight || !s'.tasks[m].status.IsDone());
      }
    }
  }

  /** Every step keeps the invariant. */
  lemma StepKeepsInv(s: State, e: Event)
    requires Inv(s) && Enabled(s, e)
    ensures Inv(Apply(s, e))
  {
    match e
    case Add(jobId, members, newTasks, alone) => AddKeepsInv(s, jobId, members, newTasks, alone);
    case Work(id, status) =>
      WorkKeepsTidy(s, id, status);
      WorkKeepsGraph(s, id, status);
    case Process(id) =>
      ProcessTaskStep(s, id);
      if CanProcess(s, id) {
        ProcessKeepsTidy(s, id, ProcessTask(s, id));
        ProcessKeepsGraph(s, id, ProcessTask(s, id));
      } else {
        RefusedKeepsTidy(s, id, ProcessTask(s, id));
      }
  }

  // ---------- Runs ----------

  ghost predicate IsRun(run: seq<Event>)
    decreases |run|, 0
  {
    run == [] || (IsRun(run[..|run| - 1]) && Enabled(After(run[..|run| - 1]), run[|run| - 1]))
  }

  ghost function After(run: seq<Event>): State
    requires IsRun(run)
    decreases |run|, 1
  {
    if run == [] then INITIAL else Apply(After(run[..|run| - 1]), run[|run| - 1])
  }

  lemma {:induction false} ReachableInv(run: seq<Event>)
    requires IsRun(run)
    ensures Inv(After(run))
  {
    if run == [] {
    } else {
      ReachableInv(run[..|run| - 1]);
      StepKeepsInv(After(run[..|run| - 1]), run[|run| - 1]);
    }
  }

  lemma RunOneMore(run: seq<Event>, e: Event)
    requires IsRun(run) && Enabled(After(run), e)
    ensures IsRun(run + [e]) && After(run + [e]) == Apply(After(run), e)
  {
    assert (run + [e])[..|run + [e]| - 1] == run;
  }

  // ---------- How a task gets stuck ----------

  /** The event is the return of an unfinished task. */
  predicate Refused(s: State, e: Event) {
    e.Process? && !CanProcess(s, e.id)
  }

  /** A task is stuck only from the moment it comes back unfinished. */
  lemma StuckOnlyByRefusal(s: State, e: Event, id: Uuid)
    requires Inv(s) && Enabled(s, e) && id in Apply(s, e).tasks && Stuck(Apply(s, e), id)
    ensures id in s.tasks && (Stuck(s, id) || (e == Process(id) && Refused(s, e)))
  {
    match e
    case Add(jobId, _, newTasks, _) =>
      if id in s.tasks && jobId !in s.jobs {
        assert id !in newTasks;
      }
    case Work(_, _) => assert TaskOk(s, id);
    case Process(x) =>
      ProcessTaskStep(s, x);
      if CanProcess(s, x) {
        if x != id && !s.tasks[id].status.IsDone() {
          ProcessedFlight(s, x, Apply(s, e), id);
        }
      }
  }

  /** So a job gets its first stuck task only by such a return. */
  lemma StepKeepsUnstuck(s: State, e: Event, jobId: Uuid)
    requires Inv(s) && Enabled(s, e) && !HasStuck(s, jobId) && !Refused(s, e)
    ensures !HasStuck(Apply(s, e), jobId)
  {
    var s' := Apply(s, e);
    if id :| id in s'.tasks && s'.tasks[id].jobId == jobId && Stuck(s', id) {
      StuckOnlyByRefusal(s, e, id);
      StepKeepsJobOf(s, e, id);
    }
  }

  lemma StepKeepsJobOf(s: State, e: Event, id: Uuid)
    requires Inv(s) && Enabled(s, e) && id in s.tasks
    ensures id in Apply(s, e).tasks && Apply(s, e).tasks[id].jobId == s.tasks[id].jobId
    ensures Apply(s, e).tasks[id].dependsOn == s.tasks[id].dependsOn
  {
    match e
    case Add(jobId, _, newTasks, _) => assert jobId !in s.jobs ==> id !in newTasks;
    case Work(_, _) =>
    case Process(x) => ProcessTaskStep(s, x);
  }
}
