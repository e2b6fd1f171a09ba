/** The objects of internal/source/handler.go; each method takes the step of the machine in Sources. */
module SourceHandlers {
  import opened Sources

  class DatabaseSource {
    const id: Ref
    const name: string
    const instanceName: string
    const migrateFrom: string
    const backupPath: string
    var expectState: SourceState
    var state: SourceState
    var retryDelay: nat
    var retryTimes: nat
    var nextScheduleAt: int

    ghost function Value(): Source
      reads this
    {
      Source(name, instanceName, migrateFrom, backupPath, expectState, state, retryDelay, retryTimes, nextScheduleAt)
    }

    method ResetRetryDelay()
      modifies this
      ensures Value() == Reset(old(Value()))
    {
      retryTimes := 0;
      retryDelay := 0;
      nextScheduleAt := NO_TIME;
    }

    method NextRetryDelay() returns (delay: nat)
      modifies this
      ensures delay == NextDelay(old(retryDelay))
      ensures Value() == old(Value()).(retryTimes := old(retryTimes) + 1, retryDelay := delay)
    {
      retryTimes := retryTimes + 1;
      if retryDelay == 0 {
        retryDelay := 2;
      } else if retryDelay == 2 {
        retryDelay := 3;
      } else if retryDelay == 3 {
        retryDelay := 5;
      } else if retryDelay < 3600 {
        retryDelay := retryDelay + retryDelay;
      }
      return retryDelay;
    }

    /** The source's part of retryNextTime. */
    method Reschedule(now: int)
      modifies this
      ensures Value() == Rescheduled(old(Value()), now)
    {
      state := Scheduling;
      var delay := NextRetryDelay();
      nextScheduleAt := now + delay;
    }

    method UpdateState(st: DbStatus) returns (changed: bool)
      modifies this
      ensures (Value(), changed) == Sources.UpdateState(old(Value()), st)
    {
      if st.instanceName != instanceName {
        return false;
      }
      if st.stage == "DropDatabase" && st.status == "Done" && expectState == Idle {
        state := Dropped;
        return true;
      }
      if st.stage == Name(expectState) && state != expectState {
        state := expectState;
        ResetRetryDelay();
        return true;
      }
      if st.IsFailed() && state == Processing {
        state := Failed;
        return true;
      }
      return false;
    }
  }

  ghost function Snapshot(registry: map<Ref, DatabaseSource>): map<Ref, Source>
    reads registry.Values
  {
    map r | r in registry :: registry[r].Value()
  }

  class BaseSourceHandler {
    var databases: map<string, DatabaseSource>
    /** Sent to the cron producer; sent to the source producer; started removals. */
    var timers: multiset<Timer>
    var sends: multiset<Ref>
    var removals: multiset<Ref>
    ghost var registry: map<Ref, DatabaseSource>

    constructor ()
      ensures Valid() && Model() == INITIAL
    {
      databases, timers, sends, removals, registry := map[], multiset{}, multiset{}, multiset{}, map[];
    }

    ghost predicate Registered(source: DatabaseSource)
      reads this`registry
    {
      source.id in registry && registry[source.id] == source
    }

    ghost predicate Valid()
      reads this`registry, this`databases
    {
      && (forall r :: r in registry ==> registry[r].id == r)
      && (forall name :: name in databases ==> Registered(databases[name]))
    }

    ghost function Held(): map<string, Ref>
      reads this`databases
    {
      map name | name in databases :: databases[name].id
    }

    ghost function Model(): State
      reads this, registry.Values
    {
      State(Snapshot(registry), Held(), timers, sends, removals)
    }

    method PushTimer(t: Timer)
      modifies this`timers
      ensures Model() == old(Model()).(timers := old(timers) + multiset{t})
    {
      timers := timers + multiset{t};
    }

    method PushSend(r: Ref)
      modifies this`sends
      ensures Model() == old(Model()).(sends := old(sends) + multiset{r})
    {
      sends := sends + multiset{r};
    }

    method SetState(source: DatabaseSource, state: SourceState)
      requires Valid() && Registered(source)
      modifies source`state
      ensures Model() == Sources.SetState(old(Model()), source.id, state)
    {
      ghost var before := Snapshot(registry);
      source.state := state;
      assert Snapshot(registry) == before[source.id := source.Value()];
    }

    method Schedule(source: DatabaseSource, at: int)
      requires Valid() && Registered(source)
      modifies source`state, source`nextScheduleAt
      ensures Model() == old(Model()).(
        sources := old(Model()).sources[source.id := old(source.Value()).(state := Scheduling, nextScheduleAt := at)])
      ensures source.nextScheduleAt == at
    {
      ghost var before := Snapshot(registry);
      source.state := Scheduling;
      source.nextScheduleAt := at;
      assert Snapshot(registry) == before[source.id := source.Value()];
    }

    method Reschedule(source: DatabaseSource, now: int)
      requires Valid() && Registered(source)
      modifies source
      ensures Model() == old(Model()).(
        sources := old(Model()).sources[source.id := Rescheduled(old(source.Value()), now)])
      ensures source.Value() == Rescheduled(old(source.Value()), now)
    {
      ghost var before := Snapshot(registry);
      source.Reschedule(now);
      assert Snapshot(registry) == before[source.id := source.Value()];
    }

    method RetryNextTime(source: DatabaseSource, now: int)
      requires Valid() && Registered(source)
      modifies this`timers, source
      ensures Model() == Sources.RetryNextTime(old(Model()), source.id, now)
    {
      Reschedule(source, now);
      PushTimer(Retry(source.name, source.nextScheduleAt));
    }

    method UpdateDbStatus(source: DatabaseSource, st: DbStatus, now: int)
      requires Valid() && Registered(source)
      modifies this`timers, this`removals, source
      ensures Model() == Sources.UpdateDbStatus(old(Model()), source.id, st, now)
    {
      ghost var before := Snapshot(registry);
      var changed := source.UpdateState(st);
      assert Snapshot(registry) == before[source.id := source.Value()];
      if changed {
        if source.state == Failed {
          RetryNextTime(source, now);
          return;
        }
        if source.state == Dropped {
          removals := removals + multiset{source.id};
          return;
        }
      }
    }

    /** Handle after the look at the current status. */
    method Attempt(source: DatabaseSource, o: Outside, now: int)
      requires Valid() && Registered(source)
      modifies this`timers, source
      ensures Model() == Sources.Attempt(old(Model()), source.id, o, now)
    {
      SetState(source, Processing);
      if source.expectState == Idle {
        return;
      }
      if !o.password {
        return;
      }
      if o.create == Offline {
        SetState(source, Pending);
      } else if o.create == Refused {
        SetState(source, Failed);
        RetryNextTime(source, now);
      }
    }

    method Handle(source: DatabaseSource, o: Outside, now: int)
      requires Valid() && Registered(source)
      modifies this`timers, this`removals, this`sends, source
      ensures Model() == Sources.Handle(old(Model()), source.id, o, now)
    {
      TakeSend(source.id);
      if o.found {
        UpdateDbStatus(source, o.status, now);
        assert Model().sources[source.id] == source.Value();
        if source.state == source.expectState {
          return;
        }
      }
      Attempt(source, o, now);
    }

    method TakeSend(r: Ref)
      modifies this`sends
      ensures Model() == old(Model()).(sends := old(sends) - multiset{r})
    {
      sends := sends - multiset{r};
    }

    method AddDatabaseSource(source: DatabaseSource)
      requires Valid() && source.id !in registry
      modifies this`databases, this`registry, this`sends, source`expectState
      ensures Valid()
      ensures Model() == Sources.AddDatabaseSource(old(Model()), source.id, old(source.Value()))
    {
      if source.name in databases {
        var oldSource := databases[source.name];
        if !(oldSource.instanceName != source.instanceName || oldSource.migrateFrom != source.migrateFrom
             || oldSource.backupPath != source.backupPath) {
          return;
        }
      }
      Hold(source);
      PushSend(source.id);
    }

    method Hold(source: DatabaseSource)
      requires Valid() && source.id !in registry
      modifies this`databases, this`registry, source`expectState
      ensures Valid()
      ensures Model() == old(Model()).(
        sources := old(Model()).sources[source.id := old(source.Value()).(expectState := ReadyToUse)],
        databases := old(Model()).databases[source.name := source.id])
    {
      Register(source);
      ghost var held := Held();
      databases := databases[source.name := source];
      assert Held() == held[source.name := source.id];
    }

    method Register(source: DatabaseSource)
      requires Valid() && source.id !in registry
      modifies this`registry, source`expectState
      ensures Valid() && Registered(source)
      ensures Model() == old(Model()).(
        sources := old(Model()).sources[source.id := old(source.Value()).(expectState := ReadyToUse)])
    {
      ghost var before := Snapshot(registry);
      source.expectState := ReadyToUse;
      registry := registry[source.id := source];
      assert Snapshot(registry) == before[source.id := source.Value()];
    }

    method MarkDatabaseSourceIdle(name: string, delay: nat, now: int)
      requires Valid()
      modifies this`timers, if name in databases then {databases[name]} else {}
      ensures Model() == Sources.MarkDatabaseSourceIdle(old(Model()), name, delay, now)
    {
      if name in databases {
        var source := databases[name];
        if source.expectState != Idle {
          MarkIdle(source, now + delay);
          PushTimer(IdleMark(name, source.nextScheduleAt));
        }
      }
    }

    method MarkIdle(source: DatabaseSource, at: int)
      requires Valid() && Registered(source)
      modifies source`expectState, source`state, source`nextScheduleAt
      ensures Model() == old(Model()).(sources := old(Model()).sources[source.id :=
        old(source.Value()).(expectState := Idle, state := Scheduling, nextScheduleAt := at)])
      ensures source.nextScheduleAt == at
    {
      ghost var before := Snapshot(registry);
      source.expectState := Idle;
      source.state := Scheduling;
      source.nextScheduleAt := at;
      assert Snapshot(registry) == before[source.id := source.Value()];
    }

    /** The callback of a timer: of retryNextTime, or idleDatabaseSource. */
    method Fire(t: Timer)
      requires Valid()
      modifies this`timers, this`sends
      ensures Model() == Sources.Fire(old(Model()), t)
    {
      var due := IsDue(t);
      DropTimer(t);
      if due {
        PushSend(databases[t.name].id);
      }
    }

    method IsDue(t: Timer) returns (due: bool)
      requires Valid()
      ensures due == Matches(Model(), t)
    {
      if t.name in databases {
        var source := databases[t.name];
        assert Registered(source) && Model().sources[source.id] == source.Value();
        return (t.Retry? || source.expectState == Idle) && source.nextScheduleAt == t.at;
      }
      return false;
    }

    method DropTimer(t: Timer)
      modifies this`timers
      ensures Model() == old(Model()).(timers := old(timers) - multiset{t})
    {
      timers := timers - multiset{t};
    }

    method OnDbStatusChanged(st: DbStatus, now: int)
      requires Valid()
      modifies this`timers, this`removals, if st.name in databases then {databases[st.name]} else {}
      ensures Model() == StatusChanged(old(Model()), st, now)
    {
      if st.name in databases {
        UpdateDbStatus(databases[st.name], st, now);
      }
    }

    method RemoveDatabaseSource(source: DatabaseSource)
      requires Valid() && Registered(source)
      modifies this`removals, this`databases
      ensures Valid() && Model() == Sources.RemoveDatabaseSource(old(Model()), source.id)
    {
      DropRemoval(source.id);
      if source.state == Dropped {
        Release(source.name);
      }
    }

    method DropRemoval(r: Ref)
      modifies this`removals
      ensures Model() == old(Model()).(removals := old(removals) - multiset{r})
    {
      removals := removals - multiset{r};
    }

    method Release(name: string)
      requires Valid()
      modifies this`databases
      ensures Valid() && Model() == old(Model()).(databases := old(Model()).databases - {name})
    {
      ghost var held := Held();
      databases := databases - {name};
      assert Held() == held - {name};
    }

    /** One round of the loop in handleDatabasesOnInstanceOnline. */
    method InstanceOnline(source: DatabaseSource, instance: string, found: bool, st: DbStatus, now: int)
      requires Valid() && Registered(source)
      modifies this`timers, this`removals, this`sends, source
      ensures Model() == Sources.InstanceOnline(old(Model()), source.id, instance, found, st, now)
    {
      if source.state == source.expectState {
        return;
      }
      if source.instanceName != instance && source.migrateFrom != instance {
        return;
      }
      if found {
        UpdateDbStatus(source, st, now);
      }
      if source.state == Pending {
        Schedule(source, now);
        PushSend(source.id);
      }
    }
  }
}
