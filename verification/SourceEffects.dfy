/**
 * What each event makes of the desired-state records, told by their fields, over every reachable state of the
 * machine in Sources.
 */
module SourceEffects {
  import opened Sources

  // ---------- In plain terms ----------

  /** Only the source r becomes another. */
  function Becomes(s: State, r: Ref, y: Source): State {
    s.(sources := s.sources[r := y])
  }

  /** The own instance reports the stage the source is to reach; its status does not matter. */
  predicate Arrives(x: Source, st: DbStatus) {
    && st.instanceName == x.instanceName && x.state != x.expectState
    && st.stage == (if x.expectState == Idle then "Idle" else "ReadyToUse")
  }

  /** The own instance has dropped the database of a source that is to be idle. */
  predicate Drops(x: Source, st: DbStatus) {
    st.instanceName == x.instanceName && x.expectState == Idle && st.stage == "DropDatabase" && st.status == "Done"
  }

  /** The own instance reports a failure of a source in processing. */
  predicate Fails(x: Source, st: DbStatus) {
    && st.instanceName == x.instanceName && x.state == Processing && !Arrives(x, st)
    && (st.status == "Failed" || st.status == "Expired" || st.status == "Cancelled")
  }

  /** y is x scheduled once more, after 2, 3, 5 and then twice the delay as long as that is below an hour. */
  predicate TriesAgain(x: Source, y: Source, now: int) {
    && y == x.(state := Scheduling, retryTimes := x.retryTimes + 1, retryDelay := y.retryDelay,
               nextScheduleAt := now + y.retryDelay)
    && y.retryDelay == (if x.retryDelay == 0 then 2 else if x.retryDelay == 2 then 3 else if x.retryDelay == 3 then 5
                        else if x.retryDelay < 3600 then 2 * x.retryDelay else x.retryDelay)
  }

  /** The source r is scheduled once more, with a timer for its new time. */
  predicate RetriesLater(s: State, r: Ref, now: int, s': State)
    requires r in s.sources
  {
    && r in s'.sources && TriesAgain(s.sources[r], s'.sources[r], now)
    && s' == Becomes(s, r, s'.sources[r]).(
         timers := s.timers + multiset{Retry(s.sources[r].name, s'.sources[r].nextScheduleAt)})
  }

  /** What a database status makes of the source r: one of four things. */
  predicate OnStatus(s: State, r: Ref, st: DbStatus, now: int, s': State)
    requires r in s.sources
  {
    var x := s.sources[r];
    && s'.sources.Keys == s.sources.Keys
    && (Arrives(x, st) ==>
          s' == Becomes(s, r, x.(state := x.expectState, retryDelay := 0, retryTimes := 0, nextScheduleAt := NO_TIME)))
    && (Drops(x, st) ==> s' == Becomes(s, r, x.(state := Dropped)).(removals := s.removals + multiset{r}))
    && (Fails(x, st) ==> RetriesLater(s, r, now, s'))
    && (!Arrives(x, st) && !Drops(x, st) && !Fails(x, st) ==> s' == s)
  }

  /** What an attempt to create the database makes of the source r. */
  predicate OnAttempt(s: State, r: Ref, o: Outside, now: int, s': State)
    requires r in s.sources
  {
    var x := s.sources[r];
    if x.expectState == Idle || !o.password || o.create == Created then s' == Becomes(s, r, x.(state := Processing))
    else if o.create == Offline then s' == Becomes(s, r, x.(state := Pending))
    else RetriesLater(s, r, now, s')
  }

  /** A source that is found to be as it is to be is left alone. */
  predicate OnSynced(s: State, r: Ref, o: Outside, now: int, s': State)
    requires r in s.sources
  {
    if o.found && s.sources[r].state == s.sources[r].expectState then s' == s else OnAttempt(s, r, o, now, s')
  }

  predicate SameConfig(x: Source, y: Source) {
    x.instanceName == y.instanceName && x.migrateFrom == y.migrateFrom && x.backupPath == y.backupPath
  }

  /** A pending source is scheduled for now and sent. */
  predicate WakesPending(s: State, r: Ref, now: int, s': State) {
    && r in s.sources
    && s' == if s.sources[r].state != Pending then s
             else Becomes(s, r, s.sources[r].(state := Scheduling, nextScheduleAt := now)).(
                    sends := s.sends + multiset{r})
  }

  /** The source held under the name of the timer still waits for its time, and is still to be idle for an idle mark. */
  predicate StillWaits(s: State, t: Timer) {
    && t.name in s.databases && s.databases[t.name] in s.sources
    && var x := s.sources[s.databases[t.name]];
       x.nextScheduleAt == t.at && (t.Retry? || x.expectState == Idle)
  }

  // ---------- Every event, in these terms ----------

  /** A notified status, for the source held under its name. */
  predicate OnNotified(s: State, st: DbStatus, now: int, s': State) {
    if st.name in s.databases then s.databases[st.name] in s.sources && OnStatus(s, s.databases[st.name], st, now, s')
    else s' == s
  }

  /**
   * A delivery: the status found is taken in first; a source that then is as it is to be is left alone, every other
   * one is attempted.
   */
  ghost predicate OnHandled(s: State, r: Ref, o: Outside, now: int, s': State) {
    && r in s.sources
    && var s0 := s.(sends := s.sends - multiset{r});
       if o.found then exists s1 :: OnStatus(s0, r, o.status, now, s1) && OnSynced(s1, r, o, now, s')
       else OnAttempt(s0, r, o, now, s')
  }

  /** An addition: skipped when a source of this name is held with the same instance, migration and backup path. */
  predicate OnAdded(s: State, r: Ref, x: Source, s': State) {
    && (x.name in s.databases ==> s.databases[x.name] in s.sources)
    && s' == if x.name in s.databases && SameConfig(s.sources[s.databases[x.name]], x) then s
             else Becomes(s, r, x.(expectState := ReadyToUse)).(
                    databases := s.databases[x.name := r], sends := s.sends + multiset{r})
  }

  /** A source marked idle waits for the delay; one already marked, or not held, is left alone. */
  predicate OnMarkedIdle(s: State, name: string, delay: nat, now: int, s': State) {
    && (name in s.databases ==> s.databases[name] in s.sources)
    && s' == if name !in s.databases || s.sources[s.databases[name]].expectState == Idle then s
             else Becomes(s, s.databases[name], s.sources[s.databases[name]].(
                            expectState := Idle, state := Scheduling, nextScheduleAt := now + delay)).(
                    timers := s.timers + multiset{IdleMark(name, now + delay)})
  }

  /** A timer goes, and sends the source that still waits for it. */
  predicate OnFired(s: State, t: Timer, s': State) {
    s' == s.(timers := s.timers - multiset{t},
             sends := if StillWaits(s, t) then s.sends + multiset{s.databases[t.name]} else s.sends)
  }

  /** A removal takes the name off exactly when its source still is dropped. */
  predicate OnRemoved(s: State, r: Ref, s': State) {
    && r in s.sources
    && s' == s.(removals := s.removals - multiset{r},
                databases := if s.sources[r].state == Dropped then s.databases - {s.sources[r].name} else s.databases)
  }

  /** An instance comes online: of its sources, one that is pending is scheduled for now and sent. */
  ghost predicate OnOnline(s: State, r: Ref, instance: string, found: bool, st: DbStatus, now: int, s': State) {
    && r in s.sources
    && var x := s.sources[r];
       if x.state == x.expectState || (instance != x.instanceName && instance != x.migrateFrom) then s' == s
       else if found then exists s1 :: OnStatus(s, r, st, now, s1) && WakesPending(s1, r, now, s')
       else WakesPending(s, r, now, s')
  }

  ghost predicate Effect(s: State, e: Event, s': State) {
    match e
    case EHandle(r, o, now) => OnHandled(s, r, o, now, s')
    case EAdd(r, x) => OnAdded(s, r, x, s')
    case EMarkIdle(name, delay, now) => OnMarkedIdle(s, name, delay, now, s')
    case EFire(t, _) => OnFired(s, t, s')
    case EStatus(st, now) => OnNotified(s, st, now, s')
    case ERemove(r) => OnRemoved(s, r, s')
    case EOnline(r, instance, found, st, now) => OnOnline(s, r, instance, found, st, now, s')
  }

  // ---------- One handler call ----------

  lemma UpdateDoes(x: Source, st: DbStatus, y: Source, changed: bool)
    requires x.expectState == ReadyToUse || x.expectState == Idle
    requires (y, changed) == UpdateState(x, st)
    ensures Arrives(x, st) ==> changed && y == x.(state := x.expectState, retryDelay := 0, retryTimes := 0,
                                                 nextScheduleAt := NO_TIME)
    ensures Drops(x, st) ==> changed && y == x.(state := Dropped)
    ensures Fails(x, st) ==> changed && y == x.(state := Failed)
    ensures !Arrives(x, st) && !Drops(x, st) && !Fails(x, st) ==> y == x && !changed
    ensures !(Arrives(x, st) && Drops(x, st))
  {
  }

  lemma StatusDoes(s: State, r: Ref, st: DbStatus, now: int)
    requires r in s.sources && (s.sources[r].expectState == ReadyToUse || s.sources[r].expectState == Idle)
    ensures OnStatus(s, r, st, now, UpdateDbStatus(s, r, st, now))
  {
    var x := s.sources[r];
    var (y, changed) := UpdateState(x, st);
    UpdateDoes(x, st, y, changed);
    assert Becomes(s, r, x) == s;
    if Fails(x, st) {
      RetryDoes(s, r, now, Becomes(s, r, y));
    }
  }

  /** Whatever the state in between. */
  lemma RetryDoes(s: State, r: Ref, now: int, s1: State)
    requires r in s.sources && exists state :: s1 == Becomes(s, r, s.sources[r].(state := state))
    ensures RetriesLater(s, r, now, RetryNextTime(s1, r, now))
  {
    var s' := RetryNextTime(s1, r, now);
    assert s'.sources == s.sources[r := s'.sources[r]];
  }

  lemma AttemptDoes(s: State, r: Ref, o: Outside, now: int)
    requires r in s.sources
    ensures OnAttempt(s, r, o, now, Attempt(s, r, o, now))
  {
    var x := s.sources[r];
    var s1 := SetState(s, r, Processing);
    assert SetState(s1, r, Pending) == Becomes(s, r, x.(state := Pending));
    assert SetState(s1, r, Failed) == Becomes(s, r, x.(state := Failed));
    RetryDoes(s, r, now, SetState(s1, r, Failed));
  }

  // ---------- Every event ----------

  lemma StatusEffect(s: State, st: DbStatus, now: int)
    requires Inv(s)
    ensures OnNotified(s, st, now, StatusChanged(s, st, now))
  {
    if st.name in s.databases {
      assert Linked(s, st.name);
      StatusDoes(s, s.databases[st.name], st, now);
    }
  }

  lemma HandleEffect(s: State, r: Ref, o: Outside, now: int)
    requires r in s.sources && (s.sources[r].expectState == ReadyToUse || s.sources[r].expectState == Idle)
    ensures OnHandled(s, r, o, now, Handle(s, r, o, now))
  {
    var s0 := s.(sends := s.sends - multiset{r});
    var s1 := if o.found then UpdateDbStatus(s0, r, o.status, now) else s0;
    if o.found {
      StatusDoes(s0, r, o.status, now);
    }
    AttemptDoes(s1, r, o, now);
    assert OnSynced(s1, r, o, now, Handle(s, r, o, now));
  }

  lemma AddEffect(s: State, r: Ref, x: Source)
    requires Inv(s)
    ensures OnAdded(s, r, x, AddDatabaseSource(s, r, x))
  {
    assert x.name in s.databases ==> Linked(s, x.name);
  }

  lemma MarkIdleEffect(s: State, name: string, delay: nat, now: int)
    requires Inv(s)
    ensures OnMarkedIdle(s, name, delay, now, MarkDatabaseSourceIdle(s, name, delay, now))
  {
    assert name in s.databases ==> Linked(s, name);
  }

  lemma OnlineEffect(s: State, r: Ref, instance: string, found: bool, st: DbStatus, now: int)
    requires r in s.sources && (s.sources[r].expectState == ReadyToUse || s.sources[r].expectState == Idle)
    ensures OnOnline(s, r, instance, found, st, now, InstanceOnline(s, r, instance, found, st, now))
  {
    var s1 := if found then UpdateDbStatus(s, r, st, now) else s;
    if found {
      StatusDoes(s, r, st, now);
    }
    assert s.sources[r].Synced() || (s.sources[r].instanceName != instance && s.sources[r].migrateFrom != instance)
           || WakesPending(s1, r, now, InstanceOnline(s, r, instance, found, st, now));
  }

  /** In every reachable state, every event does what is said above. */
  lemma EventEffect(run: seq<Event>, e: Event)
    requires IsRun(run)
    ensures Enabled(After(run), e) ==> Effect(After(run), e, Apply(After(run), e))
  {
    ReachableInv(run);
    if Enabled(After(run), e) {
      EveryEffect(After(run), e);
    }
  }

  lemma EveryEffect(s: State, e: Event)
    requires Inv(s) && Enabled(s, e)
    ensures Effect(s, e, Apply(s, e))
  {
    match e
    case EHandle(r, o, now) => HandleEffect(s, r, o, now);
    case EAdd(r, x) => AddEffect(s, r, x);
    case EMarkIdle(name, delay, now) => MarkIdleEffect(s, name, delay, now);
    case EFire(t, _) =>
    case EStatus(st, now) => StatusEffect(s, st, now);
    case ERemove(r) =>
    case EOnline(r, instance, found, st, now) => OnlineEffect(s, r, instance, found, st, now);
  }

  // ---------- What follows for whole runs ----------

  /** A timer for a source that waits for it, in plain terms. */
  predicate IsTimerFor(t: Timer, x: Source) {
    t == Retry(x.name, x.nextScheduleAt) || (t == IdleMark(x.name, x.nextScheduleAt) && x.expectState == Idle)
  }

  /** A held source that is scheduled is on its way to the handler, or a timer for it is queued. */
  lemma ScheduledSourcesHaveATimer(run: seq<Event>, name: string)
    requires IsRun(run)
    ensures name in After(run).databases ==> HasATimer(After(run), name)
  {
    ReachableInv(run);
    var s := After(run);
    if name in s.databases {
      assert Linked(s, name);
      var x := s.sources[s.databases[name]];
      if x.state == Scheduling && s.databases[name] !in s.sends {
        var t :| t in s.timers && WakesSource(t, x);
        assert IsTimerFor(t, x);
      }
    }
  }

  ghost predicate HasATimer(s: State, name: string)
    requires name in s.databases
  {
    && s.databases[name] in s.sources
    && var x := s.sources[s.databases[name]];
    && x.name == name
    && (x.state == Scheduling ==> s.databases[name] in s.sends || exists t :: t in s.timers && IsTimerFor(t, x))
  }

  /** Sources arrive with nothing counted. */
  ghost predicate ArriveNew(run: seq<Event>) {
    forall i :: 0 <= i < |run| && run[i].EAdd? ==> run[i].source.retryTimes == 0 && run[i].source.retryDelay == 0
  }

  ghost predicate DelaysMatch(s: State) {
    forall r :: r in s.sources ==> s.sources[r].retryDelay == DelayAfter(s.sources[r].retryTimes)
  }

  lemma UpdateKeepsDelays(s: State, r: Ref, st: DbStatus, now: int)
    requires r in s.sources && DelaysMatch(s)
    ensures DelaysMatch(UpdateDbStatus(s, r, st, now))
  {
  }

  lemma AttemptKeepsDelays(s: State, r: Ref, o: Outside, now: int)
    requires r in s.sources && DelaysMatch(s)
    ensures DelaysMatch(Attempt(s, r, o, now))
  {
  }

  lemma StepKeepsDelays(s: State, e: Event)
    requires Enabled(s, e) && DelaysMatch(s)
    requires e.EAdd? ==> e.source.retryTimes == 0 && e.source.retryDelay == 0
    ensures DelaysMatch(Apply(s, e))
  {
    match e
    case EHandle(r, o, now) =>
      var s0 := s.(sends := s.sends - multiset{r});
      UpdateKeepsDelays(s0, r, o.status, now);
      AttemptKeepsDelays(if o.found then UpdateDbStatus(s0, r, o.status, now) else s0, r, o, now);
    case EStatus(st, now) =>
      if st.name in s.databases && s.databases[st.name] in s.sources {
        UpdateKeepsDelays(s, s.databases[st.name], st, now);
      }
    case EOnline(r, _, _, st, now) => UpdateKeepsDelays(s, r, st, now);
    case _ =>
  }

  lemma {:induction false} ReachableDelays(run: seq<Event>)
    requires IsRun(run) && ArriveNew(run)
    ensures DelaysMatch(After(run))
  {
    if run == [] {
    } else {
      ReachableDelays(run[..|run| - 1]);
      StepKeepsDelays(After(run[..|run| - 1]), run[|run| - 1]);
    }
  }

  /** In every reachable state the delay of a source is that of the retries it has made since the last reset. */
  lemma {:induction false} DelayFollowsRetries(run: seq<Event>, r: Ref)
    requires IsRun(run) && ArriveNew(run)
    ensures r in After(run).sources ==> After(run).sources[r].retryDelay == Delay(After(run).sources[r].retryTimes)
  {
    ReachableDelays(run);
    if r in After(run).sources {
      DelayInPlainTerms(After(run).sources[r].retryTimes);
    }
  }

  /** 0, 2, 3, then 5 doubled until it has passed an hour. */
  function Delay(retries: nat): nat {
    match retries
    case 0 => 0
    case 1 => 2
    case 2 => 3
    case 3 => 5
    case 4 => 10
    case 5 => 20
    case 6 => 40
    case 7 => 80
    case 8 => 160
    case 9 => 320
    case 10 => 640
    case 11 => 1280
    case 12 => 2560
    case _ => 5120
  }

  lemma {:induction false} DelayInPlainTerms(n: nat)
    ensures DelayAfter(n) == Delay(n)
  {
    if n == 0 {
    } else {
      DelayInPlainTerms(n - 1);
    }
  }

  /**
   * A source that is found dropped as it is handled goes on to processing; its removal, coming after that, finds it no
   * longer dropped and leaves it held.
   */
  lemma DroppedWhileHandledStays(run: seq<Event>, r: Ref, o: Outside, now: int)
    requires IsRun(run)
    ensures Enabled(After(run), EHandle(r, o, now)) && o.found && Drops(After(run).sources[r], o.status) ==>
      var s1 := Apply(After(run), EHandle(r, o, now));
      && Enabled(s1, ERemove(r)) && s1.sources[r].state == Processing
      && Apply(s1, ERemove(r)) == s1.(removals := s1.removals - multiset{r})
  {
    ReachableInv(run);
    var s := After(run);
    if Enabled(s, EHandle(r, o, now)) && o.found && Drops(s.sources[r], o.status) {
      DroppedGoesOn(s, r, o, now);
    }
  }

  lemma DroppedGoesOn(s: State, r: Ref, o: Outside, now: int)
    requires r in s.sources && o.found && Drops(s.sources[r], o.status)
    ensures var s1 := Handle(s, r, o, now);
      && r in s1.removals && r in s1.sources && s1.sources[r].state == Processing
      && RemoveDatabaseSource(s1, r) == s1.(removals := s1.removals - multiset{r})
  {
  }
}
