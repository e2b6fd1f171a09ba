/** Where sources in each state wait, and which of them wait for nothing. */
module SourceStates {
  import opened Sources

  predicate Held(s: State, r: Ref)
    requires r in s.sources
  {
    s.sources[r].name in s.databases && s.databases[s.sources[r].name] == r
  }

  /**
   * A source never rests as failed; it is ready or idle only as it is to be; dropped, it is either being removed or
   * no longer held.
   */
  ghost predicate Settled(s: State, r: Ref)
    requires r in s.sources
  {
    var x := s.sources[r];
    && x.state != Failed
    && (x.state == ReadyToUse || x.state == Idle ==> x.Synced())
    && (x.state == Dropped && Held(s, r) ==> r in s.removals)
  }

  /** And one that nothing is known of yet is on its way to the handler. */
  ghost predicate Rests(s: State, r: Ref)
    requires r in s.sources
  {
    Settled(s, r) && (s.sources[r].state == Unknown ==> r in s.sends)
  }

  ghost predicate AllRest(s: State) {
    forall r {:trigger Rests(s, r)} :: r in s.sources ==> Rests(s, r)
  }

  // ---------- Every step ----------

  /** A source is to be ready or idle, nothing else. */
  ghost predicate Expected(s: State) {
    forall r :: r in s.sources ==> s.sources[r].expectState == ReadyToUse || s.sources[r].expectState == Idle
  }

  lemma UpdateKeepsSettled(s: State, r: Ref, st: DbStatus, now: int, k: Ref)
    requires Expected(s) && r in s.sources && k in s.sources && Settled(s, k)
    ensures var s' := UpdateDbStatus(s, r, st, now);
      && Expected(s') && r in s'.sources && k in s'.sources && Settled(s', k) && s'.sends == s.sends
      && (s'.sources[k].state == Unknown ==> s.sources[k].state == Unknown)
  {
  }

  lemma AttemptKeepsSettled(s: State, r: Ref, o: Outside, now: int, k: Ref)
    requires Expected(s) && r in s.sources && k in s.sources && Settled(s, k)
    ensures var s' := Attempt(s, r, o, now);
      && k in s'.sources && Settled(s', k) && s'.sends == s.sends
      && (s'.sources[k].state == Unknown ==> s.sources[k].state == Unknown && k != r)
  {
  }

  lemma HandleKeepsRest(s: State, r: Ref, o: Outside, now: int, k: Ref)
    requires Inv(s) && AllRest(s) && Enabled(s, EHandle(r, o, now)) && k in s.sources
    ensures k in Handle(s, r, o, now).sources && Rests(Handle(s, r, o, now), k)
  {
    assert Rests(s, k) && Expected(s);
    var s0 := s.(sends := s.sends - multiset{r});
    assert Settled(s0, k) && Expected(s0);
    var s1 := if o.found then UpdateDbStatus(s0, r, o.status, now) else s0;
    if o.found {
      UpdateKeepsSettled(s0, r, o.status, now, k);
    }
    AttemptKeepsSettled(s1, r, o, now, k);
    assert k != r ==> s0.sends[k] == s.sends[k];
  }

  lemma AddKeepsRest(s: State, r: Ref, x: Source, k: Ref)
    requires Inv(s) && AllRest(s) && Enabled(s, EAdd(r, x)) && k in AddDatabaseSource(s, r, x).sources
    ensures Rests(AddDatabaseSource(s, r, x), k)
  {
    assert k in s.sources ==> Rests(s, k);
  }

  lemma MarkIdleKeepsRest(s: State, name: string, delay: nat, now: int, k: Ref)
    requires Inv(s) && AllRest(s) && k in s.sources
    ensures k in MarkDatabaseSourceIdle(s, name, delay, now).sources
    ensures Rests(MarkDatabaseSourceIdle(s, name, delay, now), k)
  {
    assert Rests(s, k);
    assert name in s.databases ==> Linked(s, name);
  }

  lemma FireKeepsRest(s: State, t: Timer, k: Ref)
    requires AllRest(s) && k in s.sources
    ensures Rests(Fire(s, t), k)
  {
    assert Rests(s, k);
  }

  lemma UpdateKeepsRest(s: State, r: Ref, st: DbStatus, now: int, k: Ref)
    requires Expected(s) && AllRest(s) && r in s.sources && k in s.sources
    ensures k in UpdateDbStatus(s, r, st, now).sources && Rests(UpdateDbStatus(s, r, st, now), k)
  {
    assert Rests(s, k);
    UpdateKeepsSettled(s, r, st, now, k);
  }

  lemma RemoveKeepsRest(s: State, r: Ref, k: Ref)
    requires AllRest(s) && r in s.sources && k in s.sources
    ensures Rests(RemoveDatabaseSource(s, r), k)
  {
    assert Rests(s, k);
  }

  lemma OnlineKeepsRest(s: State, r: Ref, instance: string, found: bool, st: DbStatus, now: int, k: Ref)
    requires Inv(s) && AllRest(s) && r in s.sources && k in s.sources
    ensures k in InstanceOnline(s, r, instance, found, st, now).sources
    ensures Rests(InstanceOnline(s, r, instance, found, st, now), k)
  {
    assert Expected(s) && Rests(s, k);
    if found {
      UpdateKeepsRest(s, r, st, now, k);
      UpdateKeepsRest(s, r, st, now, r);
    }
  }

  lemma StatusKeepsRest(s: State, st: DbStatus, now: int, k: Ref)
    requires Inv(s) && AllRest(s) && k in s.sources
    ensures k in StatusChanged(s, st, now).sources && Rests(StatusChanged(s, st, now), k)
  {
    assert Expected(s) && Rests(s, k);
    if st.name in s.databases && s.databases[st.name] in s.sources {
      UpdateKeepsRest(s, s.databases[st.name], st, now, k);
    }
  }

  lemma HandleBringsNone(s: State, r: Ref, o: Outside, now: int)
    requires r in s.sources
    ensures Handle(s, r, o, now).sources.Keys == s.sources.Keys
  {
    var s0 := s.(sends := s.sends - multiset{r});
    UpdateChangesOnly(s0, r, o.status, now);
    var s1 := if o.found then UpdateDbStatus(s0, r, o.status, now) else s0;
    AttemptChangesOnly(s1, r, o, now);
  }

  lemma OnlineBringsNone(s: State, r: Ref, instance: string, found: bool, st: DbStatus, now: int)
    requires r in s.sources
    ensures InstanceOnline(s, r, instance, found, st, now).sources.Keys == s.sources.Keys
  {
    UpdateChangesOnly(s, r, st, now);
  }

  lemma StatusBringsNone(s: State, st: DbStatus, now: int)
    ensures StatusChanged(s, st, now).sources.Keys == s.sources.Keys
  {
    if st.name in s.databases && s.databases[st.name] in s.sources {
      UpdateChangesOnly(s, s.databases[st.name], st, now);
    }
  }

  /** Only an addition brings a source in. */
  lemma SourcesStay(s: State, e: Event)
    requires Enabled(s, e) && !e.EAdd?
    ensures Apply(s, e).sources.Keys == s.sources.Keys
  {
    match e
    case EHandle(r, o, now) => HandleBringsNone(s, r, o, now);
    case EMarkIdle(_, _, _) =>
    case EFire(_, _) =>
    case EStatus(st, now) => StatusBringsNone(s, st, now);
    case ERemove(_) =>
    case EOnline(r, instance, found, st, now) => OnlineBringsNone(s, r, instance, found, st, now);
  }

  lemma StepKeepsRestOf(s: State, e: Event, k: Ref)
    requires Inv(s) && AllRest(s) && Enabled(s, e) && k in Apply(s, e).sources && (e.EAdd? || k in s.sources)
    ensures Rests(Apply(s, e), k)
  {
    match e
    case EHandle(r, o, now) => HandleKeepsRest(s, r, o, now, k);
    case EAdd(r, x) => AddKeepsRest(s, r, x, k);
    case EMarkIdle(name, delay, now) => MarkIdleKeepsRest(s, name, delay, now, k);
    case EFire(t, _) => FireKeepsRest(s, t, k);
    case EStatus(st, now) => StatusKeepsRest(s, st, now, k);
    case ERemove(r) => RemoveKeepsRest(s, r, k);
    case EOnline(r, instance, found, st, now) => OnlineKeepsRest(s, r, instance, found, st, now, k);
  }

  lemma StepKeepsRest(s: State, e: Event)
    requires Inv(s) && AllRest(s) && Enabled(s, e)
    ensures AllRest(Apply(s, e))
  {
    if !e.EAdd? {
      SourcesStay(s, e);
    }
    forall k | k in Apply(s, e).sources
      ensures Rests(Apply(s, e), k)
    {
      StepKeepsRestOf(s, e, k);
    }
  }

  lemma {:induction false} ReachableRest(run: seq<Event>)
    requires IsRun(run)
    ensures AllRest(After(run))
  {
    if run == [] {
    } else {
      ReachableInv(run[..|run| - 1]);
      ReachableRest(run[..|run| - 1]);
      StepKeepsRest(After(run[..|run| - 1]), run[|run| - 1]);
    }
  }

  // ---------- Main results ----------

  /** What brings a held source back to the handler, or shows that it need not come, state by state. */
  ghost predicate Accounted(s: State, r: Ref)
    requires r in s.sources
  {
    match s.sources[r].state
    case Unknown => r in s.sends
    case Scheduling => Watched(s, r)
    case ReadyToUse => s.sources[r].Synced()
    case Idle => s.sources[r].Synced()
    case Dropped => r in s.removals
    case Failed => false
    case Pending => true
    case Processing => true
  }

  /**
   * In every reachable state: a held source is on its way to the handler or watched by a matching timer, is what it is
   * to be, is being removed, or is pending or processing; it is never failed.
   */
  lemma EverySourceIsAccountedFor(run: seq<Event>, name: string)
    requires IsRun(run)
    ensures var s := After(run);
      name in s.databases ==> s.databases[name] in s.sources && Accounted(s, s.databases[name])
  {
    EveryScheduledSourceIsWatched(run, name);
    ReachableInv(run);
    ReachableRest(run);
    var s := After(run);
    if name in s.databases {
      assert Linked(s, name) && Rests(s, s.databases[name]);
    }
  }

  /**
   * Pending and processing sources wait for news only: handled with an unreadable password, a new source is processing
   * with no delivery and no timer left.
   */
  lemma UnreadablePasswordWaitsForNews(r: Ref, x: Source, o: Outside, now: int)
    requires x.state == Unknown && !o.found && !o.password
    ensures IsRun([EAdd(r, x), EHandle(r, o, now)])
    ensures var s := After([EAdd(r, x), EHandle(r, o, now)]);
      && x.name in s.databases && s.databases[x.name] == r && r in s.sources && s.sources[r].state == Processing
      && s.sends == multiset{} && s.timers == multiset{}
  {
    var run := [EAdd(r, x), EHandle(r, o, now)];
    assert run[..1] == [EAdd(r, x)] && run[..1][..0] == [];
    assert After([]) == INITIAL;
    var s1 := After(run[..1]);
    assert s1 == AddDatabaseSource(INITIAL, r, x);
    assert s1.sends - multiset{r} == multiset{};
  }
}
