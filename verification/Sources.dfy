/**
 * Desired-state records and the timers that drive them: internal/interface/sourceApi/database_source.go
 * and, with each handler call as one step, internal/source/handler.go.
 */
module Sources {

  datatype SourceState = Unknown | Pending | Scheduling | Processing | Idle | ReadyToUse | Failed | Dropped

  /** The stage names that database states share with source states. */
  function Name(state: SourceState): string {
    match state
    case Unknown => "Unknown"
    case Pending => "Pending"
    case Scheduling => "Scheduling"
    case Processing => "Processing"
    case Idle => "Idle"
    case ReadyToUse => "ReadyToUse"
    case Failed => "Failed"
    case Dropped => "Dropped"
  }

  /** The zero time.Time. */
  const NO_TIME := 0

  datatype Source = Source(
    name: string, instanceName: string, migrateFrom: string, backupPath: string,
    expectState: SourceState, state: SourceState,
    retryDelay: nat, retryTimes: nat, nextScheduleAt: int)
  {
    predicate Synced() {
      state == expectState
    }

    predicate IsConfigChanged(other: Source) {
      instanceName != other.instanceName || migrateFrom != other.migrateFrom || backupPath != other.backupPath
    }
  }

  /** DbStatusResponse of internal/interface/grpcServerApi/db_manager.go. */
  datatype DbStatus = DbStatus(name: string, stage: string, status: string, instanceName: string) {
    predicate IsReady(dbName: string, instName: string) {
      stage == "ReadyToUse" && status == "Done" && name == dbName && instanceName == instName
    }

    predicate IsMigrateOutReady(dbName: string, instName: string) {
      stage == "Idle" && status == "Done" && name == dbName && instanceName == instName
    }

    predicate IsFailed() {
      status == "Failed" || status == "Expired" || status == "Cancelled"
    }
  }

  // ---------- Retry delays ----------

  function NextDelay(delay: nat): nat {
    if delay == 0 then 2
    else if delay == 2 then 3
    else if delay == 3 then 5
    else if delay < 3600 then delay + delay
    else delay
  }

  /** The delay in force after n retries since the last reset. */
  function DelayAfter(n: nat): nat {
    if n == 0 then 0 else NextDelay(DelayAfter(n - 1))
  }

  function Pow2(n: nat): nat {
    if n == 0 then 1 else 2 * Pow2(n - 1)
  }

  lemma {:induction false} Pow2Grows(m: nat, n: nat)
    requires m <= n
    ensures 1 <= Pow2(m) <= Pow2(n)
  {
    if m < n {
      Pow2Grows(m, n - 1);
    } else if m > 0 {
      Pow2Grows(m - 1, m - 1);
    }
  }

  /** 2, 3, then 5 doubled until it has passed 3600: 5120 is where it stays. */
  lemma {:induction false} RetryDelayClosedForm(n: nat)
    ensures DelayAfter(n) == (if n == 0 then 0 else if n == 1 then 2 else if n == 2 then 3
                              else if 5 * Pow2(n - 3) < 5120 then 5 * Pow2(n - 3) else 5120)
  {
    assert Pow2(9) == 512 && Pow2(10) == 1024;
    if n > 0 {
      RetryDelayClosedForm(n - 1);
    }
    if n >= 4 {
      Pow2Grows(0, n - 4);
      if n <= 13 {
        Pow2Grows(n - 4, 9);
      } else {
        Pow2Grows(10, n - 4);
      }
    }
  }

  lemma {:induction false} RetryDelaysAreMonotoneAndBounded(m: nat, n: nat)
    requires m <= n
    ensures DelayAfter(m) <= DelayAfter(n) <= 5120
  {
    if m < n {
      RetryDelaysAreMonotoneAndBounded(m, n - 1);
    }
    RetryDelayClosedForm(n);
  }

  // ---------- State changes of one source ----------

  function Reset(x: Source): Source {
    x.(retryTimes := 0, retryDelay := 0, nextScheduleAt := NO_TIME)
  }

  /** UpdateState: the source after a database status, and whether it changed. */
  function UpdateState(x: Source, st: DbStatus): (Source, bool) {
    if st.instanceName != x.instanceName then (x, false)
    else if st.stage == "DropDatabase" && st.status == "Done" && x.expectState == Idle then (x.(state := Dropped), true)
    else if st.stage == Name(x.expectState) && x.state != x.expectState then (Reset(x.(state := x.expectState)), true)
    else if st.IsFailed() && x.state == Processing then (x.(state := Failed), true)
    else (x, false)
  }

  /** retryNextTime, on the source. */
  function Rescheduled(x: Source, now: int): Source {
    x.(state := Scheduling, retryTimes := x.retryTimes + 1, retryDelay := NextDelay(x.retryDelay),
       nextScheduleAt := now + NextDelay(x.retryDelay))
  }

  // ---------- The handler ----------

  datatype Timer = Retry(name: string, at: int) | IdleMark(name: string, at: int)

  /** Identities of source objects. */
  type Ref = nat

  datatype State = State(
    sources: map<Ref, Source>,      // every source object, replaced ones included
    databases: map<string, Ref>,    // BaseSourceHandler.Databases
    timers: multiset<Timer>,        // queued or fired, callback not yet run
    sends: multiset<Ref>,           // handed to the source producer, not yet handled
    removals: multiset<Ref>)        // RemoveDatabaseSource started, not yet run

  const INITIAL := State(map[], map[], multiset{}, multiset{}, multiset{})

  datatype CreateResult = Created | Offline | Refused

  /** What Handle meets outside: the status found, if any, the password, and the answer of CreateDb. */
  datatype Outside = Outside(found: bool, status: DbStatus, password: bool, create: CreateResult)

  function RetryNextTime(s: State, r: Ref, now: int): State
    requires r in s.sources
  {
    var x := Rescheduled(s.sources[r], now);
    s.(sources := s.sources[r := x], timers := s.timers + multiset{Retry(x.name, x.nextScheduleAt)})
  }

  function UpdateDbStatus(s: State, r: Ref, st: DbStatus, now: int): State
    requires r in s.sources
  {
    var (x, changed) := UpdateState(s.sources[r], st);
    var s1 := s.(sources := s.sources[r := x]);
    if changed && x.state == Failed then RetryNextTime(s1, r, now)
    else if changed && x.state == Dropped then s1.(removals := s1.removals + multiset{r})
    else s1
  }

  function SetState(s: State, r: Ref, state: SourceState): State
    requires r in s.sources
  {
    s.(sources := s.sources[r := s.sources[r].(state := state)])
  }

  /** Handle, once the source is found not to be in its expected state. */
  function Attempt(s: State, r: Ref, o: Outside, now: int): State
    requires r in s.sources
  {
    var s1 := SetState(s, r, Processing);
    if s.sources[r].expectState == Idle || !o.password then s1
    else
      match o.create
      case Created => s1
      case Offline => SetState(s1, r, Pending)
      case Refused => RetryNextTime(SetState(s1, r, Failed), r, now)
  }

  function Handle(s: State, r: Ref, o: Outside, now: int): State
    requires r in s.sources
  {
    var s0 := s.(sends := s.sends - multiset{r});
    var s1 := if o.found then UpdateDbStatus(s0, r, o.status, now) else s0;
    if o.found && s1.sources[r].Synced() then s1 else Attempt(s1, r, o, now)
  }

  function AddDatabaseSource(s: State, r: Ref, x: Source): State {
    if x.name in s.databases && s.databases[x.name] in s.sources
       && !s.sources[s.databases[x.name]].IsConfigChanged(x) then s
    else
      State(s.sources[r := x.(expectState := ReadyToUse)], s.databases[x.name := r], s.timers,
            s.sends + multiset{r}, s.removals)
  }

  function MarkDatabaseSourceIdle(s: State, name: string, delay: nat, now: int): State {
    if name in s.databases && s.databases[name] in s.sources && s.sources[s.databases[name]].expectState != Idle then
      var r := s.databases[name];
      s.(sources := s.sources[r :=
           s.sources[r].(expectState := Idle, state := Scheduling, nextScheduleAt := now + delay)],
         timers := s.timers + multiset{IdleMark(name, now + delay)})
    else s
  }

  /** Whether the callback of a timer enqueues its source. */
  predicate Matches(s: State, t: Timer) {
    && t.name in s.databases && s.databases[t.name] in s.sources
    && s.sources[s.databases[t.name]].nextScheduleAt == t.at
    && (t.IdleMark? ==> s.sources[s.databases[t.name]].expectState == Idle)
  }

  function Fire(s: State, t: Timer): State {
    s.(timers := s.timers - multiset{t},
       sends := if Matches(s, t) then s.sends + multiset{s.databases[t.name]} else s.sends)
  }

  function StatusChanged(s: State, st: DbStatus, now: int): State {
    if st.name in s.databases && s.databases[st.name] in s.sources
    then UpdateDbStatus(s, s.databases[st.name], st, now) else s
  }

  function RemoveDatabaseSource(s: State, r: Ref): State
    requires r in s.sources
  {
    var s1 := s.(removals := s.removals - multiset{r});
    if s.sources[r].state == Dropped then s1.(databases := s1.databases - {s.sources[r].name}) else s1
  }

  /** One round of the loop over Databases when an instance comes online. */
  function InstanceOnline(s: State, r: Ref, instance: string, found: bool, st: DbStatus, now: int): State
    requires r in s.sources
  {
    var x := s.sources[r];
    if x.Synced() || (x.instanceName != instance && x.migrateFrom != instance) then s
    else
      var s1 := if found then UpdateDbStatus(s, r, st, now) else s;
      if s1.sources[r].state == Pending then
        s1.(sources := s1.sources[r := s1.sources[r].(state := Scheduling, nextScheduleAt := now)],
            sends := s1.sends + multiset{r})
      else s1
  }

  datatype Event =
    | EHandle(r: Ref, outside: Outside, now: int)
    | EAdd(r: Ref, source: Source)
    | EMarkIdle(name: string, delay: nat, now: int)
    | EFire(timer: Timer, now: int)
    | EStatus(status: DbStatus, now: int)
    | ERemove(r: Ref)
    | EOnline(r: Ref, instance: string, found: bool, status: DbStatus, now: int)

  ghost predicate Enabled(s: State, e: Event) {
    match e
    case EHandle(r, _, _) => r in s.sends && r in s.sources
    case EAdd(r, x) => r !in s.sources && x.state == Unknown
    case EMarkIdle(_, _, _) => true
    case EFire(t, now) => t in s.timers && t.at < now
    case EStatus(_, _) => true
    case ERemove(r) => r in s.removals && r in s.sources
    case EOnline(r, _, _, _, _) => r in s.databases.Values && r in s.sources
  }

  function Apply(s: State, e: Event): State
    requires e.EHandle? || e.ERemove? || e.EOnline? ==> e.r in s.sources
  {
    match e
    case EHandle(r, o, now) => Handle(s, r, o, now)
    case EAdd(r, x) => AddDatabaseSource(s, r, x)
    case EMarkIdle(name, delay, now) => MarkDatabaseSourceIdle(s, name, delay, now)
    case EFire(t, _) => Fire(s, t)
    case EStatus(st, now) => StatusChanged(s, st, now)
    case ERemove(r) => RemoveDatabaseSource(s, r)
    case EOnline(r, instance, found, st, now) => InstanceOnline(s, r, instance, found, st, now)
  }

  // ---------- No scheduled source is forgotten ----------

  /** A timer whose callback will enqueue the source r as it stands. */
  predicate WakesSource(t: Timer, x: Source) {
    t.name == x.name && t.at == x.nextScheduleAt && (t.IdleMark? ==> x.expectState == Idle)
  }

  /** A scheduled source is on its way to the handler, or a timer that still matches will send it there. */
  ghost predicate Watched(s: State, r: Ref)
    requires r in s.sources
  {
    s.sources[r].state == Scheduling ==>
      r in s.sends || exists t :: t in s.timers && WakesSource(t, s.sources[r])
  }

  ghost predicate Linked(s: State, name: string)
    requires name in s.databases
  {
    s.databases[name] in s.sources && s.sources[s.databases[name]].name == name && Watched(s, s.databases[name])
  }

  ghost predicate Inv(s: State) {
    && (forall name {:trigger Linked(s, name)} :: name in s.databases ==> Linked(s, name))
    && (forall r :: r in s.sources ==> s.sources[r].expectState == ReadyToUse || s.sources[r].expectState == Idle)
    && (forall r :: r in s.sends || r in s.removals ==> r in s.sources)
  }

  /** s' differs from s at the source r only, and drops no timer and no delivery of another source. */
  ghost predicate Touches(s: State, r: Ref, s': State) {
    && r in s.sources && s'.sources.Keys == s.sources.Keys
    && (forall k :: k in s.sources && k != r ==> s'.sources[k] == s.sources[k] && s.sends[k] <= s'.sends[k])
    && s'.sources[r].name == s.sources[r].name && s'.sources[r].expectState == s.sources[r].expectState
    && s.timers <= s'.timers
    && s'.databases == s.databases
    && (forall k :: k in s'.sends || k in s'.removals ==> k in s.sources)
  }

  lemma TouchKeepsInv(s: State, r: Ref, s': State)
    requires Inv(s) && Touches(s, r, s')
    requires r in s.databases.Values ==> Watched(s', r)
    ensures Inv(s')
  {
    forall name | name in s'.databases
      ensures Linked(s', name)
    {
      assert Linked(s, name);
      var k := s.databases[name];
      if k != r && s.sources[k].state == Scheduling && k !in s.sends {
        var t :| t in s.timers && WakesSource(t, s.sources[k]);
        assert t in s'.timers;
      }
    }
  }

  /** One source may have changed, timers and its removal may have been added. */
  ghost predicate ChangesOnly(s: State, r: Ref, s': State) {
    && r in s.sources && r in s'.sources && s'.sources == s.sources[r := s'.sources[r]]
    && s'.sources[r].name == s.sources[r].name && s'.sources[r].expectState == s.sources[r].expectState
    && s'.sends == s.sends && s'.databases == s.databases && s.timers <= s'.timers
    && (forall k :: k in s'.removals ==> k in s.removals || k == r)
  }

  lemma UpdateChangesOnly(s: State, r: Ref, st: DbStatus, now: int)
    requires r in s.sources
    ensures ChangesOnly(s, r, UpdateDbStatus(s, r, st, now))
  {
  }

  /** A database status leaves a scheduled source as it was, or scheduled with a timer of its own. */
  lemma StatusTouches(s: State, r: Ref, st: DbStatus, now: int)
    requires Inv(s) && r in s.sources
    ensures Touches(s, r, UpdateDbStatus(s, r, st, now))
    ensures Watched(s, r) ==> Watched(UpdateDbStatus(s, r, st, now), r)
  {
    UpdateChangesOnly(s, r, st, now);
    ChangedTouches(s, r, UpdateDbStatus(s, r, st, now));
    if Watched(s, r) {
      StatusKeepsWatch(s, r, st, now);
    }
  }

  lemma ChangedTouches(s: State, r: Ref, s': State)
    requires Inv(s) && ChangesOnly(s, r, s')
    ensures Touches(s, r, s')
  {
  }

  lemma StatusKeepsWatch(s: State, r: Ref, st: DbStatus, now: int)
    requires Inv(s) && r in s.sources && Watched(s, r)
    ensures r in UpdateDbStatus(s, r, st, now).sources && Watched(UpdateDbStatus(s, r, st, now), r)
  {
    var (x, changed) := UpdateState(s.sources[r], st);
    var s1 := s.(sources := s.sources[r := x]);
    if changed && x.state == Failed {
      var s' := RetryNextTime(s1, r, now);
      var t := Retry(s'.sources[r].name, s'.sources[r].nextScheduleAt);
      assert t in s'.timers && WakesSource(t, s'.sources[r]);
    } else if changed {
      assert x.state != Scheduling;
    } else {
      assert s1.sources[r] == s.sources[r];
    }
  }

  lemma HandleKeepsInv(s: State, r: Ref, o: Outside, now: int)
    requires Inv(s) && Enabled(s, EHandle(r, o, now))
    ensures Inv(Handle(s, r, o, now))
  {
    HandleTouches(s, r, o, now);
    TouchKeepsInv(s, r, Handle(s, r, o, now));
  }

  lemma AttemptChangesOnly(s: State, r: Ref, o: Outside, now: int)
    requires r in s.sources
    ensures ChangesOnly(s, r, Attempt(s, r, o, now)) && Watched(Attempt(s, r, o, now), r)
  {
    var s' := Attempt(s, r, o, now);
    var t := Retry(s'.sources[r].name, s'.sources[r].nextScheduleAt);
    assert s'.sources[r].state == Scheduling ==> t in s'.timers && WakesSource(t, s'.sources[r]);
  }

  /** Taking a delivery of r off and then changing only r touches r. */
  lemma TakenAndChanged(s: State, r: Ref, s': State)
    requires Inv(s) && r in s.sources && ChangesOnly(s.(sends := s.sends - multiset{r}), r, s')
    ensures Touches(s, r, s')
  {
  }

  lemma ChangesOnlyTwice(s: State, r: Ref, s1: State, s2: State)
    requires ChangesOnly(s, r, s1) && ChangesOnly(s1, r, s2)
    ensures ChangesOnly(s, r, s2)
  {
  }

  lemma HandleTouches(s: State, r: Ref, o: Outside, now: int)
    requires Inv(s) && Enabled(s, EHandle(r, o, now))
    ensures Touches(s, r, Handle(s, r, o, now)) && Watched(Handle(s, r, o, now), r)
  {
    var s0 := s.(sends := s.sends - multiset{r});
    if o.found {
      var s1 := UpdateDbStatus(s0, r, o.status, now);
      UpdateChangesOnly(s0, r, o.status, now);
      AttemptChangesOnly(s1, r, o, now);
      ChangesOnlyTwice(s0, r, s1, Attempt(s1, r, o, now));
    } else {
      AttemptChangesOnly(s0, r, o, now);
    }
    TakenAndChanged(s, r, Handle(s, r, o, now));
  }

  lemma AddKeepsInv(s: State, r: Ref, x: Source)
    requires Inv(s) && Enabled(s, EAdd(r, x))
    ensures Inv(AddDatabaseSource(s, r, x))
  {
    var s' := AddDatabaseSource(s, r, x);
    if s' != s {
      forall name | name in s'.databases
        ensures Linked(s', name)
      {
        if name != x.name {
          assert Linked(s, name);
        }
      }
    }
  }

  lemma MarkIdleKeepsInv(s: State, name: string, delay: nat, now: int)
    requires Inv(s)
    ensures Inv(MarkDatabaseSourceIdle(s, name, delay, now))
  {
    var s' := MarkDatabaseSourceIdle(s, name, delay, now);
    if s' != s {
      var r := s.databases[name];
      assert Linked(s, name);
      var t := IdleMark(name, now + delay);
      assert t in s'.timers && WakesSource(t, s'.sources[r]);
      forall n | n in s'.databases
        ensures Linked(s', n)
      {
        assert Linked(s, n);
        var k := s.databases[n];
        if k != r && s.sources[k].state == Scheduling && k !in s.sends {
          var u :| u in s.timers && WakesSource(u, s.sources[k]);
          assert u in s'.timers;
        }
      }
    }
  }

  /** A timer that was all that watched a source sends the source when it fires. */
  lemma FireKeepsInv(s: State, t: Timer)
    requires Inv(s)
    ensures Inv(Fire(s, t))
  {
    var s' := Fire(s, t);
    if t.name in s.databases {
      assert Linked(s, t.name);
    }
    forall name | name in s'.databases
      ensures Linked(s', name)
    {
      assert Linked(s, name);
      var k := s.databases[name];
      if s.sources[k].state == Scheduling && k !in s.sends {
        var u :| u in s.timers && WakesSource(u, s.sources[k]);
        if u == t {
          assert Matches(s, t);
        } else {
          assert u in s'.timers;
        }
      }
    }
  }

  lemma RemoveKeepsInv(s: State, r: Ref)
    requires Inv(s) && Enabled(s, ERemove(r))
    ensures Inv(RemoveDatabaseSource(s, r))
  {
    var s' := RemoveDatabaseSource(s, r);
    forall name | name in s'.databases
      ensures Linked(s', name)
    {
      assert Linked(s, name);
      assert Watched(s', s.databases[name]) <==> Watched(s, s.databases[name]);
    }
  }

  lemma OnlineKeepsInv(s: State, r: Ref, instance: string, found: bool, st: DbStatus, now: int)
    requires Inv(s) && Enabled(s, EOnline(r, instance, found, st, now))
    ensures Inv(InstanceOnline(s, r, instance, found, st, now))
  {
    var x := s.sources[r];
    if !x.Synced() && (x.instanceName == instance || x.migrateFrom == instance) {
      var s1 := if found then UpdateDbStatus(s, r, st, now) else s;
      if found {
        UpdateKeepsInv(s, r, st, now);
      }
      if s1.sources[r].state == Pending {
        WakePending(s1, r, now);
      }
    }
  }

  lemma UpdateKeepsInv(s: State, r: Ref, st: DbStatus, now: int)
    requires Inv(s) && r in s.databases.Values && r in s.sources
    ensures Inv(UpdateDbStatus(s, r, st, now)) && r in UpdateDbStatus(s, r, st, now).sources
  {
    var name :| name in s.databases && s.databases[name] == r;
    assert Linked(s, name);
    StatusTouches(s, r, st, now);
    TouchKeepsInv(s, r, UpdateDbStatus(s, r, st, now));
  }

  lemma WakePending(s: State, r: Ref, now: int)
    requires Inv(s) && r in s.sources
    ensures Inv(s.(sources := s.sources[r := s.sources[r].(state := Scheduling, nextScheduleAt := now)],
                   sends := s.sends + multiset{r}))
  {
    TouchKeepsInv(s, r, s.(sources := s.sources[r := s.sources[r].(state := Scheduling, nextScheduleAt := now)],
                           sends := s.sends + multiset{r}));
  }

  lemma StepKeepsInv(s: State, e: Event)
    requires Inv(s) && Enabled(s, e)
    ensures Inv(Apply(s, e))
  {
    match e
    case EHandle(r, o, now) => HandleKeepsInv(s, r, o, now);
    case EAdd(r, x) => AddKeepsInv(s, r, x);
    case EMarkIdle(name, delay, now) => MarkIdleKeepsInv(s, name, delay, now);
    case EFire(t, _) => FireKeepsInv(s, t);
    case EStatus(st, now) =>
      if st.name in s.databases && s.databases[st.name] in s.sources {
        assert Linked(s, st.name);
        StatusTouches(s, s.databases[st.name], st, now);
        TouchKeepsInv(s, s.databases[st.name], StatusChanged(s, st, now));
      }
    case ERemove(r) => RemoveKeepsInv(s, r);
    case EOnline(r, instance, found, st, now) => OnlineKeepsInv(s, r, instance, found, st, now);
  }

  ghost predicate IsRun(run: seq<Event>)
    decreases |run|, 0
  {
    run == [] || (IsRun(run[..|run| - 1]) && Enabled(After(run[..|run| - 1]), run[|run| - 1]))
  }

  ghost function After(run: seq<Event>): State
    requires IsRun(run)
    decreases |run|, 1
  {
    if run == [] then INITIAL else Apply(After(run[..|run| - 1]), run[|run| - 1])
  }

  lemma {:induction false} ReachableInv(run: seq<Event>)
    requires IsRun(run)
    ensures Inv(After(run))
  {
    if run == [] {
    } else {
      ReachableInv(run[..|run| - 1]);
      StepKeepsInv(After(run[..|run| - 1]), run[|run| - 1]);
    }
  }

  // ---------- Main results ----------

  /** In every reachable state, every scheduled source still held will be looked at again. */
  lemma EveryScheduledSourceIsWatched(run: seq<Event>, name: string)
    requires IsRun(run)
    ensures var s := After(run);
      name in s.databases ==> s.databases[name] in s.sources && Watched(s, s.databases[name])
  {
    ReachableInv(run);
    assert name in After(run).databases ==> Linked(After(run), name);
  }

  /** With nothing left to deliver and no timer due, no scheduled source is overdue. */
  lemma NoWakeUpIsLost(run: seq<Event>, name: string, now: int)
    requires IsRun(run)
    ensures var s := After(run);
      name in s.databases && s.sends == multiset{} && (forall t :: t in s.timers ==> now <= t.at) ==>
        && s.databases[name] in s.sources
        && (s.sources[s.databases[name]].state == Scheduling ==> now <= s.sources[s.databases[name]].nextScheduleAt)
  {
    EveryScheduledSourceIsWatched(run, name);
  }

  /**
   * A timer sends the source of its name exactly when the source still waits for that very time (and, for
   * the timer of an idle mark, still is to become idle). After a reschedule to another time, a reset, an
   * idle mark or a replacement it does nothing; and it never touches a source.
   */
  lemma TimerActsIffStillCurrent(run: seq<Event>, t: Timer, now: int)
    requires IsRun(run) && Enabled(After(run), EFire(t, now))
    ensures var s, s' := After(run), Fire(After(run), t);
      && s'.sources == s.sources && s'.databases == s.databases
      && (t.name !in s.databases ==> s'.sends == s.sends)
      && (t.name in s.databases ==>
            var r := s.databases[t.name];
            r in s.sources &&
            s'.sends == if WakesSource(t, s.sources[r]) then s.sends + multiset{r} else s.sends)
  {
    ReachableInv(run);
    TimerFires(After(run), t);
  }

  lemma TimerFires(s: State, t: Timer)
    requires Inv(s)
    ensures Fire(s, t).sources == s.sources && Fire(s, t).databases == s.databases
    ensures t.name !in s.databases ==> Fire(s, t).sends == s.sends
    ensures t.name in s.databases ==>
      var r := s.databases[t.name];
      r in s.sources && Fire(s, t).sends == if WakesSource(t, s.sources[r]) then s.sends + multiset{r} else s.sends
  {
    if t.name in s.databases {
      assert Linked(s, t.name);
    }
  }
}
