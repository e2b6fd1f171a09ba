/** Which instances a request may go to: internal/handler/grpc_server/db-instance-manager.go. */
module Instances {
  import opened Sequences
  import opened Wrappers
  import Lifecycle

  datatype Instance = Instance(name: string, pgVersion: int, databases: map<string, Lifecycle.Row>)

  /** An empty name and version 0 leave that part open. */
  datatype InstanceFilter = InstanceFilter(instanceName: string, version: int, name: string, mustExist: bool)

  /** The instance holds a copy of the database that is neither absent nor given up. */
  predicate HasActive(inst: Instance, name: string) {
    name != "" && name in inst.databases
    && !inst.databases[name].IsAlreadyIdle() && !inst.databases[name].IsNotExist()
  }

  predicate Eligible(inst: Instance, f: InstanceFilter) {
    && (f.instanceName == "" || inst.name == f.instanceName)
    && (f.version == 0 || inst.pgVersion == f.version)
    && (f.name == "" || !f.mustExist || f.name in inst.databases)
  }

  ghost predicate ByVersionDesc(xs: seq<Instance>) {
    forall i, j :: 0 <= i < j < |xs| ==> xs[i].pgVersion >= xs[j].pgVersion
  }

  /** Instances are filed under their names. */
  ghost predicate WellFiled(instances: map<string, Instance>) {
    forall name :: name in instances ==> instances[name].name == name
  }

  ghost predicate SomeActive(instances: map<string, Instance>, f: InstanceFilter) {
    exists name :: name in instances && Eligible(instances[name], f) && HasActive(instances[name], f.name)
  }

  /** What filterInstances promises, whatever order the map is walked in. */
  ghost predicate Selects(instances: map<string, Instance>, f: InstanceFilter, result: seq<Instance>) {
    && NoDuplicates(result)
    && (forall inst :: inst in result ==> IsCandidate(instances, f, inst))
    && (f.instanceName != "" ==>
          result == if f.instanceName in instances && Eligible(instances[f.instanceName], f)
                    then [instances[f.instanceName]] else [])
    && (f.instanceName == "" ==>
          if SomeActive(instances, f)
          then result != [] && HasActive(result[0], f.name)
               && forall i :: 0 < i < |result| ==> !HasActive(result[i], f.name)
          else ByVersionDesc(result) && forall inst :: IsCandidate(instances, f, inst) ==> inst in result)
  }

  predicate IsCandidate(instances: map<string, Instance>, f: InstanceFilter, inst: Instance) {
    inst.name in instances && instances[inst.name] == inst && Eligible(inst, f)
  }

  // ---------- What the callers rely on ----------

  /** The first result is the best: with an active copy if any candidate has one, else of the highest version. */
  lemma FirstIsBest(instances: map<string, Instance>, f: InstanceFilter, result: seq<Instance>, other: Instance)
    requires WellFiled(instances) && Selects(instances, f, result) && IsCandidate(instances, f, other)
    ensures result != []
    ensures HasActive(other, f.name) ==> HasActive(result[0], f.name)
    ensures f.instanceName == "" && !HasActive(result[0], f.name) ==> other.pgVersion <= result[0].pgVersion
    ensures f.instanceName != "" ==> result == [other]
  {
    if f.instanceName == "" {
      if HasActive(other, f.name) {
        assert SomeActive(instances, f);
      }
      if !SomeActive(instances, f) {
        var i :| 0 <= i < |result| && result[i] == other;
      }
    }
  }

  // ---------- The first result in plain terms ----------

  /** The instance is another one, of another version, or lacks a database that must exist. */
  predicate Misses(inst: Instance, f: InstanceFilter) {
    || (f.instanceName != "" && inst.name != f.instanceName)
    || (f.version != 0 && inst.pgVersion != f.version)
    || (f.name != "" && f.mustExist && f.name !in inst.databases)
  }

  /** Every row counts but those of databases not begun, migrated out or dropped. */
  predicate InUse(row: Lifecycle.Row) {
    match row
    case Row(None, _) => false
    case Row(Idle, Done) => false
    case Row(DropDatabase, _) => false
    case _ => true
  }

  predicate UsesDatabase(inst: Instance, name: string) {
    name != "" && name in inst.databases && InUse(inst.databases[name])
  }

  /**
   * Nothing is given only if every instance misses the filter; what is given does not miss it, and without a name asked
   * for it uses the database if any fitting instance does, and otherwise has the highest version of those that fit.
   */
  ghost predicate FitsBest(instances: map<string, Instance>, f: InstanceFilter, first: Option<Instance>) {
    match first
    case None => forall n :: n in instances ==> Misses(instances[n], f)
    case Some(x) =>
      && x.name in instances && instances[x.name] == x && !Misses(x, f)
      && (f.instanceName == "" ==>
            forall n :: n in instances && !Misses(instances[n], f) ==>
              && (UsesDatabase(instances[n], f.name) ==> UsesDatabase(x, f.name))
              && (UsesDatabase(x, f.name) || instances[n].pgVersion <= x.pgVersion))
  }

  lemma PlainTerms(inst: Instance, f: InstanceFilter)
    ensures Eligible(inst, f) <==> !Misses(inst, f)
    ensures HasActive(inst, f.name) <==> UsesDatabase(inst, f.name)
  {
  }

  lemma FirstFitsBest(instances: map<string, Instance>, f: InstanceFilter, result: seq<Instance>)
    requires WellFiled(instances) && Selects(instances, f, result)
    ensures FitsBest(instances, f, if result != [] then Some(result[0]) else None)
  {
    if result != [] {
      assert result[0] in result;
      PlainTerms(result[0], f);
    }
    forall n | n in instances && !Misses(instances[n], f)
      ensures result != []
      ensures f.instanceName == "" && UsesDatabase(instances[n], f.name) ==> UsesDatabase(result[0], f.name)
      ensures f.instanceName == "" ==>
        UsesDatabase(result[0], f.name) || instances[n].pgVersion <= result[0].pgVersion
    {
      PlainTerms(instances[n], f);
      FirstIsBest(instances, f, result, instances[n]);
      PlainTerms(result[0], f);
    }
  }

  /** Two walks over the same map agree on everything but the choice among several best candidates. */
  lemma WalksAgree(instances: map<string, Instance>, f: InstanceFilter, r1: seq<Instance>, r2: seq<Instance>)
    requires WellFiled(instances) && Selects(instances, f, r1) && Selects(instances, f, r2)
    ensures r1 == [] <==> r2 == []
    ensures f.instanceName != "" ==> r1 == r2
    ensures r1 != [] ==> (HasActive(r1[0], f.name) <==> HasActive(r2[0], f.name))
    ensures r1 != [] && !HasActive(r1[0], f.name) ==> r1[0].pgVersion == r2[0].pgVersion
    ensures !SomeActive(instances, f) ==> multiset(r1) == multiset(r2)
  {
    if r1 != [] {
      assert r1[0] in r1;
      FirstIsBest(instances, f, r2, r1[0]);
    }
    if r2 != [] {
      assert r2[0] in r2;
      FirstIsBest(instances, f, r1, r2[0]);
    }
    if !SomeActive(instances, f) {
      forall x
        ensures multiset(r1)[x] == multiset(r2)[x]
      {
        CountsAtMostOne(r1, x);
        CountsAtMostOne(r2, x);
        assert x in r1 <==> x in r2 by {
          assert x in r1 ==> IsCandidate(instances, f, x);
          assert x in r2 ==> IsCandidate(instances, f, x);
        }
      }
    }
  }

  lemma {:induction false} CountsAtMostOne(xs: seq<Instance>, x: Instance)
    requires NoDuplicates(xs)
    ensures multiset(xs)[x] == if x in xs then 1 else 0
  {
    if xs == [] {
    } else {
      CountsAtMostOne(xs[1..], x);
      assert xs == [xs[0]] + xs[1..];
    }
  }

  /** With a single active copy the choice does not depend on the walk at all. */
  lemma SingleActiveCopyIsFound(instances: map<string, Instance>, f: InstanceFilter, result: seq<Instance>,
                                home: Instance)
    requires WellFiled(instances) && Selects(instances, f, result)
    requires IsCandidate(instances, f, home) && HasActive(home, f.name)
    requires forall inst :: IsCandidate(instances, f, inst) && HasActive(inst, f.name) ==> inst == home
    ensures result != [] && result[0] == home
  {
    FirstIsBest(instances, f, result, home);
    assert IsCandidate(instances, f, result[0]);
  }

  // ---------- The code ----------

  method InsertByVersion(ys: seq<Instance>, x: Instance) returns (zs: seq<Instance>)
    requires ByVersionDesc(ys)
    ensures ByVersionDesc(zs) && multiset(zs) == multiset(ys) + multiset{x}
  {
    var k := 0;
    while k < |ys| && ys[k].pgVersion >= x.pgVersion
      invariant 0 <= k <= |ys| && forall m :: 0 <= m < k ==> ys[m].pgVersion >= x.pgVersion
    {
      k := k + 1;
    }
    zs := ys[..k] + [x] + ys[k..];
    PutInByVersion(ys, x, k);
  }

  lemma PutInByVersion(ys: seq<Instance>, x: Instance, k: nat)
    requires ByVersionDesc(ys) && k <= |ys| && (k < |ys| ==> ys[k].pgVersion < x.pgVersion)
    requires forall m :: 0 <= m < k ==> ys[m].pgVersion >= x.pgVersion
    ensures ByVersionDesc(ys[..k] + [x] + ys[k..])
    ensures multiset(ys[..k] + [x] + ys[k..]) == multiset(ys) + multiset{x}
  {
    assert ys == ys[..k] + ys[k..];
    var zs := ys[..k] + [x] + ys[k..];
    forall p, q | 0 <= p < q < |zs|
      ensures zs[p].pgVersion >= zs[q].pgVersion
    {
      PutInAt(ys, x, k, p);
      PutInAt(ys, x, k, q);
      assert k < q ==> ys[k].pgVersion >= ys[q - 1].pgVersion;
    }
  }

  lemma PutInAt(ys: seq<Instance>, x: Instance, k: nat, m: nat)
    requires k <= |ys| && m <= |ys|
    ensures (ys[..k] + [x] + ys[k..])[m] == if m < k then ys[m] else if m == k then x else ys[m - 1]
  {
  }

  /** A sort that need not be stable: only order and contents are promised. */
  method SortByVersion(xs: seq<Instance>) returns (ys: seq<Instance>)
    ensures multiset(ys) == multiset(xs) && ByVersionDesc(ys)
  {
    ys := [];
    for i := 0 to |xs|
      invariant multiset(ys) == multiset(xs[..i]) && ByVersionDesc(ys)
    {
      assert xs[..i + 1] == xs[..i] + [xs[i]];
      ys := InsertByVersion(ys, xs[i]);
    }
    assert xs[..|xs|] == xs;
  }

  lemma TwiceCountsTwo(ys: seq<Instance>, i: nat, j: nat)
    requires i < j < |ys| && ys[i] == ys[j]
    ensures multiset(ys)[ys[i]] >= 2
  {
    assert ys == ys[..j] + ys[j..];
    assert ys[..j][i] in ys[..j] && ys[j..][0] in ys[j..];
    assert multiset(ys)[ys[i]] == multiset(ys[..j])[ys[i]] + multiset(ys[j..])[ys[i]];
  }

  lemma SortedStillDistinct(xs: seq<Instance>, ys: seq<Instance>)
    requires NoDuplicates(xs) && multiset(xs) == multiset(ys)
    ensures NoDuplicates(ys) && forall x :: x in ys <==> x in xs
  {
    assert forall x :: x in ys <==> x in multiset(ys);
    assert forall x :: x in xs <==> x in multiset(xs);
    forall i, j | 0 <= i < j < |ys|
      ensures ys[i] != ys[j]
    {
      CountsAtMostOne(xs, ys[i]);
      if ys[i] == ys[j] {
        TwiceCountsTwo(ys, i, j);
      }
    }
  }

  lemma ClosedByMatch(instances: map<string, Instance>, f: InstanceFilter, result: seq<Instance>)
    requires WellFiled(instances) && NoDuplicates(result) && result != []
    requires forall inst :: inst in result ==> IsCandidate(instances, f, inst)
    requires f.instanceName != "" ==> |result| == 1
    requires f.instanceName == "" ==>
      HasActive(result[0], f.name) && forall i :: 0 < i < |result| ==> !HasActive(result[i], f.name)
    ensures Selects(instances, f, result)
  {
    assert IsCandidate(instances, f, result[0]);
  }

  lemma WalkedToTheEnd(instances: map<string, Instance>, f: InstanceFilter, result: seq<Instance>)
    requires WellFiled(instances) && NoDuplicates(result)
    requires forall inst :: inst in result <==> IsCandidate(instances, f, inst)
    requires f.instanceName != "" ==> result == []
    requires f.instanceName == "" ==> forall inst :: inst in result ==> !HasActive(inst, f.name)
    requires f.version == 0 && f.instanceName == "" ==> ByVersionDesc(result)
    ensures Selects(instances, f, result)
  {
    if f.instanceName == "" {
      forall name | name in instances
        ensures !(Eligible(instances[name], f) && HasActive(instances[name], f.name))
      {
        assert IsCandidate(instances, f, instances[name]) <==> instances[name] in result;
      }
      assert forall i :: 0 <= i < |result| ==> IsCandidate(instances, f, result[i]);
    } else if f.instanceName in instances {
      assert !IsCandidate(instances, f, instances[f.instanceName]);
    }
  }

  class DbInstanceManager {
    var instances: map<string, Instance>

    constructor ()
      ensures instances == map[]
    {
      instances := map[];
    }

    /** Registering again is allowed only with the version the instance came with. */
    method NewInstance(name: string, pgVersion: int) returns (r: Result<Instance, string>)
      requires WellFiled(instances)
      modifies this
      ensures WellFiled(instances)
      ensures forall n :: n in old(instances) ==> n in instances && instances[n] == old(instances)[n]
      ensures r.Ok? <==> (name in old(instances) ==> old(instances)[name].pgVersion == pgVersion)
      ensures r.Ok? ==> name in instances && r.value == instances[name] && r.value.pgVersion == pgVersion
      ensures instances.Keys == old(instances).Keys + if r.Ok? then {name} else {}
    {
      if name in instances {
        if instances[name].pgVersion != pgVersion {
          return Err("change pg instance version is not supported");
        }
        return Ok(instances[name]);
      }
      var inst := Instance(name, pgVersion, map[]);
      instances := instances[name := inst];
      return Ok(inst);
    }

    /** The map is walked in any order. */
    method FilterInstances(f: InstanceFilter) returns (result: seq<Instance>)
      requires WellFiled(instances)
      ensures Selects(instances, f, result)
    {
      result := [];
      var matched := false;
      var remaining := instances.Keys;
      while remaining != {}
        invariant remaining <= instances.Keys
        invariant NoDuplicates(result)
        invariant forall inst :: inst in result <==>
          IsCandidate(instances, f, inst) && inst.name !in remaining
        invariant matched <==> f.instanceName != "" && f.instanceName in instances && f.instanceName !in remaining
        invariant f.instanceName == "" ==> forall inst :: inst in result ==> !HasActive(inst, f.name)
        invariant f.instanceName != "" ==> result == []
        decreases |remaining|
      {
        var name :| name in remaining;
        remaining := remaining - {name};
        var inst := instances[name];
        if f.instanceName != "" {
          if inst.name == f.instanceName {
            matched := true;
          } else {
            continue;
          }
        }
        if f.version != 0 && inst.pgVersion != f.version {
          continue;
        }
        if f.name != "" {
          if f.name !in inst.databases && f.mustExist {
            continue;
          }
          if f.name in inst.databases
             && !inst.databases[f.name].IsAlreadyIdle() && !inst.databases[f.name].IsNotExist() {
            matched := true;
          }
        }
        assert IsCandidate(instances, f, inst) && inst !in result;
        if matched {
          result := [inst] + result;
          ClosedByMatch(instances, f, result);
          return;
        }
        result := result + [inst];
      }
      ghost var walked := result;
      if !matched && f.version == 0 {
        result := SortByVersion(result);
        SortedStillDistinct(walked, result);
        assert |multiset(result)| == |multiset(walked)|;
      }
      WalkedToTheEnd(instances, f, result);
    }

    method FirstMatchedInstance(f: InstanceFilter) returns (first: Option<Instance>)
      requires WellFiled(instances)
      ensures FitsBest(instances, f, first)
      ensures exists result :: Selects(instances, f, result)
                && first == if result != [] then Some(result[0]) else None
      ensures first.Some? ==> IsCandidate(instances, f, first.value)
      ensures first == None ==> forall inst :: !IsCandidate(instances, f, inst)
    {
      var found := FilterInstances(f);
      forall inst | IsCandidate(instances, f, inst)
        ensures found != []
      {
        FirstIsBest(instances, f, found, inst);
      }
      FirstFitsBest(instances, f, found);
      if |found| > 0 {
        return Some(found[0]);
      }
      return None;
    }
  }
}
