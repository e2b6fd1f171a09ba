/**
 * Subscriptions to database statuses: the list edited while it is walked
 * (internal/handler/grpc_server/db_status_subscriber.go), the one-shot subscription of MigrateOut
 * (db-instance.go) and the waiting one of WaitReady (db-instance-manager.go).
 */
module Subscribers {
  import opened Sequences
  import opened Wrappers
  import Lifecycle
  import Sources

  function StageName(stage: Lifecycle.Stage): string {
    match stage
    case None => "None"
    case CreateUser => "CreateUser"
    case CreateDatabase => "CreateDatabase"
    case BackupDatabase => "BackupDatabase"
    case RestoreDatabase => "RestoreDatabase"
    case ReadyToUse => "ReadyToUse"
    case Idle => "Idle"
    case DropDatabase => "DropDatabase"
  }

  function StatusName(status: Lifecycle.Status): string {
    match status
    case Processing => "Processing"
    case Done => "Done"
    case Failed => "Failed"
  }

  /** What an instance knows of a database. */
  datatype Database = Database(name: string, row: Lifecycle.Row) {
    predicate IsFailed() {
      row.status == Lifecycle.Failed
    }

    predicate IsSynced() {
      row.status == Lifecycle.Done &&
      (row.stage == Lifecycle.ReadyToUse || row.stage == Lifecycle.Idle || row.stage == Lifecycle.DropDatabase)
    }
  }

  /** A subscribed closure: the source handler's, MigrateOut's or WaitReady's. id tells closures apart. */
  datatype Subscriber =
    | Source(id: nat)
    | MigrateOutWatch(id: nat, dbName: string, instName: string)
    | ReadyWatch(id: nat, dbName: string, instName: string)

  /** One change of a database on an instance, and the waiters whose timeout is over when it is notified. */
  datatype Notice = Notice(db: Database, instanceName: string, expired: set<nat>) {
    /** StatusResponse: what the closures are given. */
    function Response(): Sources.DbStatus {
      Sources.DbStatus(db.name, StageName(db.row.stage), StatusName(db.row.status), instanceName)
    }

    predicate Shows(stage: Lifecycle.Stage, dbName: string, instName: string) {
      db.row == Lifecycle.Row(stage, Lifecycle.Done) && db.name == dbName && instanceName == instName
    }
  }

  /** The names in the response tell the rows apart. */
  lemma ResponseShows(n: Notice, dbName: string, instName: string)
    ensures n.Response().IsReady(dbName, instName) <==> n.Shows(Lifecycle.ReadyToUse, dbName, instName)
    ensures n.Response().IsMigrateOutReady(dbName, instName) <==> n.Shows(Lifecycle.Idle, dbName, instName)
  {
    assert |"CreateUser"| == |"ReadyToUse"| && "CreateUser"[0] != "ReadyToUse"[0];
    assert |"None"| == |"Idle"| && "None"[0] != "Idle"[0];
    assert n.db.row.stage == Lifecycle.Idle <==> StageName(n.db.row.stage) == "Idle";
  }

  /** What the closure returns: whether it stays subscribed. */
  predicate Continues(sub: Subscriber, n: Notice) {
    match sub
    case Source(_) => true
    case MigrateOutWatch(_, dbName, instName) => !n.Response().IsMigrateOutReady(dbName, instName)
    case ReadyWatch(id, dbName, instName) => id !in n.expired && !n.Response().IsReady(dbName, instName)
  }

  /** Whether the call starts the callback (MigrateOut) or reports ready (WaitReady). */
  predicate Fires(sub: Subscriber, n: Notice) {
    match sub
    case Source(_) => false
    case MigrateOutWatch(_, dbName, instName) => n.Response().IsMigrateOutReady(dbName, instName)
    case ReadyWatch(id, dbName, instName) => id !in n.expired && n.Response().IsReady(dbName, instName)
  }

  /** OnStatusChanged passes on failures and final stages only. */
  predicate Offered(db: Database) {
    db.IsFailed() || db.IsSynced()
  }

  function Kept(subs: seq<Subscriber>, n: Notice): seq<Subscriber> {
    Filter(sub => Continues(sub, n), subs)
  }

  function Fired(subs: seq<Subscriber>, n: Notice): seq<Subscriber> {
    Filter(sub => Fires(sub, n), subs)
  }

  lemma OneMoreCalled(subs: seq<Subscriber>, k: nat, n: Notice)
    requires k < |subs|
    ensures subs[..k + 1] == subs[..k] + [subs[k]]
    ensures Kept(subs[..k + 1], n) == Kept(subs[..k], n) + if Continues(subs[k], n) then [subs[k]] else []
    ensures Fired(subs[..k + 1], n) == Fired(subs[..k], n) + if Fires(subs[k], n) then [subs[k]] else []
  {
    assert subs[..k + 1] == subs[..k] + [subs[k]];
    FilterAppend(sub => Continues(sub, n), subs[..k], [subs[k]]);
    FilterAppend(sub => Fires(sub, n), subs[..k], [subs[k]]);
  }

  lemma OneOut(subs: seq<Subscriber>, i: nat)
    requires i < |subs|
    ensures (subs[..i] + subs[i + 1..])[..i] == subs[..i] && (subs[..i] + subs[i + 1..])[i..] == subs[i + 1..]
    ensures subs[..i + 1] == subs[..i] + [subs[i]]
  {
  }

  class DbStatusSubscriber {
    var subscribers: seq<Subscriber>
    /** Effects of the closures: which were called, and which fired, in order. */
    var called: seq<Subscriber>
    var fired: seq<Subscriber>

    ghost function Model(): State
      reads this
    {
      State(subscribers, fired, called)
    }

    constructor ()
      ensures Model() == After([])
      ensures subscribers == [] && called == [] && fired == []
    {
      subscribers, called, fired := [], [], [];
    }

    method Subscribe(sub: Subscriber)
      modifies this`subscribers
      ensures Model() == Step(old(Model()), Event.Subscribe(sub))
      ensures subscribers == old(subscribers) + [sub]
    {
      subscribers := subscribers + [sub];
    }

    method Call(sub: Subscriber, n: Notice) returns (continues: bool)
      modifies this`called, this`fired
      ensures called == old(called) + [sub] && continues == Continues(sub, n)
      ensures fired == old(fired) + if Fires(sub, n) then [sub] else []
    {
      called := called + [sub];
      match sub
      case Source(_) => return true;
      case MigrateOutWatch(_, dbName, instName) =>
        if n.Response().IsMigrateOutReady(dbName, instName) {
          fired := fired + [sub];
          return false;
        }
        return true;
      case ReadyWatch(id, dbName, instName) =>
        if id in n.expired {
          return false;
        }
        if n.Response().IsReady(dbName, instName) {
          fired := fired + [sub];
          return false;
        }
        return true;
    }

    /** Each subscriber is called exactly once, in order, and exactly those that continue are kept. */
    method NotifyStatusChanged(n: Notice)
      modifies this
      ensures called == old(called) + old(subscribers)
      ensures subscribers == Kept(old(subscribers), n)
      ensures fired == old(fired) + Fired(old(subscribers), n)
    {
      ghost var before := subscribers;
      ghost var done := 0;
      var i := 0;
      while i < |subscribers|
        invariant 0 <= i <= |subscribers| && 0 <= done <= |before|
        invariant subscribers[i..] == before[done..]
        invariant subscribers[..i] == Kept(before[..done], n)
        invariant called == old(called) + before[..done]
        invariant fired == old(fired) + Fired(before[..done], n)
        decreases |before| - done
      {
        assert subscribers[i] == subscribers[i..][0] == before[done];
        OneMoreCalled(before, done, n);
        OneOut(subscribers, i);
        assert subscribers[i + 1..] == before[done + 1..] by {
          assert subscribers[i + 1..] == subscribers[i..][1..];
        }
        var continues := Call(subscribers[i], n);
        if !continues {
          subscribers := subscribers[..i] + subscribers[i + 1..];
          i := i - 1;
        }
        i := i + 1;
        done := done + 1;
      }
      assert before[..done] == before;
    }

    method OnStatusChanged(n: Notice)
      modifies this
      ensures Model() == Step(old(Model()), Event.Status(n))
      ensures called == if Offered(n.db) then old(called) + old(subscribers) else old(called)
      ensures subscribers == if Offered(n.db) then Kept(old(subscribers), n) else old(subscribers)
      ensures fired == if Offered(n.db) then old(fired) + Fired(old(subscribers), n) else old(fired)
    {
      if !n.db.IsFailed() && !n.db.IsSynced() {
        return;
      }
      if |subscribers| == 0 {
        assert Fired(subscribers, n) == [] == Kept(subscribers, n);
        return;
      }
      NotifyStatusChanged(n);
    }

    /**
     * MigrateOut: with the database missing, or nothing left to migrate, the callback runs at once; otherwise it
     * is subscribed and the job is sent.
     */
    method MigrateOut(watch: Subscriber, db: Option<Lifecycle.Row>) returns (sent: bool)
      requires watch.MigrateOutWatch?
      modifies this`subscribers, this`fired
      ensures Model() == Step(old(Model()), Event.MigrateOut(watch, db))
      ensures sent == !ReadyToMigrate(db)
      ensures subscribers == old(subscribers) + if sent then [watch] else []
      ensures fired == old(fired) + if sent then [] else [watch]
    {
      if db.None? || ReadyToMigrate(db) {
        fired := fired + [watch];
        return false;
      }
      Subscribe(watch);
      return true;
    }

    /**
     * The first look of WaitReady; db is missing if the instance is. Only if it is not ready does WaitReady go on to
     * Subscribe, in a step of its own: nothing is locked in between.
     */
    method Look(watch: Subscriber, db: Option<Lifecycle.Row>) returns (ready: bool)
      requires watch.ReadyWatch?
      modifies this`fired
      ensures Model() == Step(old(Model()), Event.Look(watch, db))
      ensures ready == IsReadyToUse(db)
      ensures fired == old(fired) + if ready then [watch] else []
    {
      if db.None? {
        return false;
      }
      if db.value.IsReadyToUse() {
        fired := fired + [watch];
        return true;
      }
      return false;
    }
  }

  predicate ReadyToMigrate(db: Option<Lifecycle.Row>) {
    db.None? || db.value.IsNotExist() || db.value.IsAlreadyIdle()
  }

  predicate IsReadyToUse(db: Option<Lifecycle.Row>) {
    db.Some? && db.value.IsReadyToUse()
  }

  // ---------- Whole runs ----------

  datatype Event =
    | Subscribe(sub: Subscriber)
    | MigrateOut(watch: Subscriber, db: Option<Lifecycle.Row>)
    | Look(watch: Subscriber, db: Option<Lifecycle.Row>)
    | Status(n: Notice)

  /** The call is answered at its first look, without a subscription. */
  predicate AtOnce(ev: Event) {
    (ev.MigrateOut? && ReadyToMigrate(ev.db)) || (ev.Look? && IsReadyToUse(ev.db))
  }

  datatype State = State(subs: seq<Subscriber>, fired: seq<Subscriber>, called: seq<Subscriber>)

  function Step(s: State, ev: Event): State {
    match ev
    case Subscribe(sub) => s.(subs := s.subs + [sub])
    case MigrateOut(watch, _) =>
      if AtOnce(ev) then s.(fired := s.fired + [watch]) else s.(subs := s.subs + [watch])
    case Look(watch, _) => if AtOnce(ev) then s.(fired := s.fired + [watch]) else s
    case Status(n) =>
      if Offered(n.db) then State(Kept(s.subs, n), s.fired + Fired(s.subs, n), s.called + s.subs) else s
  }

  function After(events: seq<Event>): State {
    if events == [] then State([], [], []) else Step(After(events[..|events| - 1]), events[|events| - 1])
  }

  /** The events that bring a subscriber in. */
  predicate Brings(ev: Event, sub: Subscriber) {
    ev == Subscribe(sub) || ((ev.MigrateOut? || (ev.Look? && AtOnce(ev))) && ev.watch == sub)
  }

  /** A notice that reaches the subscribers and makes this one leave. */
  predicate Ends(ev: Event, sub: Subscriber) {
    ev.Status? && Offered(ev.n.db) && !Continues(sub, ev.n)
  }

  /** sub is brought in by event k alone. */
  ghost predicate BroughtOnce(events: seq<Event>, sub: Subscriber, k: nat) {
    k < |events| && forall i :: 0 <= i < |events| ==> (Brings(events[i], sub) <==> i == k)
  }

  lemma {:induction false} FilterCount(keep: Subscriber -> bool, xs: seq<Subscriber>, x: Subscriber)
    ensures multiset(Filter(keep, xs))[x] == if keep(x) then multiset(xs)[x] else 0
  {
    if xs == [] {
    } else {
      FilterCount(keep, xs[1..], x);
      assert xs == [xs[0]] + xs[1..];
    }
  }

  lemma StatusCounts(s: State, n: Notice, sub: Subscriber)
    requires Offered(n.db)
    ensures var s' := Step(s, Status(n));
      && multiset(s'.subs)[sub] == (if Continues(sub, n) then multiset(s.subs)[sub] else 0)
      && multiset(s'.fired)[sub] == multiset(s.fired)[sub] + (if Fires(sub, n) then multiset(s.subs)[sub] else 0)
  {
    FilterCount(x => Continues(x, n), s.subs, sub);
    FilterCount(x => Fires(x, n), s.subs, sub);
  }

  /** An event that neither brings a subscriber in nor ends it leaves its subscriptions and firings as they were. */
  lemma OtherEvent(s: State, ev: Event, sub: Subscriber)
    requires !Brings(ev, sub) && (!Ends(ev, sub) || sub !in s.subs)
    ensures multiset(Step(s, ev).subs)[sub] == multiset(s.subs)[sub]
    ensures multiset(Step(s, ev).fired)[sub] == multiset(s.fired)[sub]
  {
    match ev
    case Subscribe(other) =>
    case MigrateOut(other, _) =>
    case Look(other, _) =>
    case Status(n) =>
      if Offered(n.db) {
        StatusCounts(s, n, sub);
      }
  }

  lemma {:induction false} NothingBeforeItCame(events: seq<Event>, sub: Subscriber)
    requires forall i :: 0 <= i < |events| ==> !Brings(events[i], sub)
    ensures sub !in After(events).subs && sub !in After(events).fired
  {
    if events == [] {
    } else {
      var before, ev := events[..|events| - 1], events[|events| - 1];
      NothingBeforeItCame(before, sub);
      assert !Brings(ev, sub);
      OtherEvent(After(before), ev, sub);
    }
  }

  /** Brought in at k and not ended since: subscribed once, not fired. */
  lemma {:induction false} StaysUntilItEnds(events: seq<Event>, sub: Subscriber, k: nat)
    requires BroughtOnce(events, sub, k) && !AtOnce(events[k])
    requires forall i :: k < i < |events| ==> !Ends(events[i], sub)
    ensures multiset(After(events).subs)[sub] == 1 && multiset(After(events).fired)[sub] == 0
  {
    var before, ev := events[..|events| - 1], events[|events| - 1];
    if k == |events| - 1 {
      NothingBeforeItCame(before, sub);
    } else {
      assert forall i :: 0 <= i < |before| ==> before[i] == events[i];
      StaysUntilItEnds(before, sub, k);
      assert !Brings(ev, sub);
      OtherEvent(After(before), ev, sub);
    }
  }

  /**
   * A watch fires at the first notice that ends it, if that notice fires it, and never again, however many
   * notices follow: j is that first notice.
   */
  lemma {:induction false} FiresOnceAtItsFirstEnd(events: seq<Event>, sub: Subscriber, k: nat, j: nat)
    requires BroughtOnce(events, sub, k) && !AtOnce(events[k])
    requires !sub.Source? && k < j < |events| && Ends(events[j], sub)
    requires forall i :: k < i < j ==> !Ends(events[i], sub)
    ensures sub !in After(events).subs
    ensures multiset(After(events).fired)[sub] == if Fires(sub, events[j].n) then 1 else 0
  {
    var before, ev := events[..|events| - 1], events[|events| - 1];
    assert forall i :: 0 <= i < |before| ==> before[i] == events[i];
    if j == |events| - 1 {
      StaysUntilItEnds(before, sub, k);
      StatusCounts(After(before), ev.n, sub);
    } else {
      FiresOnceAtItsFirstEnd(before, sub, k, j);
      assert !Brings(ev, sub);
      OtherEvent(After(before), ev, sub);
    }
  }

  /** The callback of one MigrateOut runs at most once: at the call or at the first (Idle, Done) of its database. */
  lemma {:induction false} MigrateOutFiresAtMostOnce(events: seq<Event>, sub: Subscriber, k: nat)
    requires BroughtOnce(events, sub, k) && events[k].MigrateOut? && sub.MigrateOutWatch?
    ensures var atOnce := match events[k].db
              case None => true
              case Some(row) => row.stage == Lifecycle.Stage.None || row.stage == Lifecycle.DropDatabase
                                || row == Lifecycle.Row(Lifecycle.Idle, Lifecycle.Done);
      multiset(After(events).fired)[sub] ==
      if atOnce then 1
      else if exists i :: k < i < |events| && ShowsIdle(events[i], sub) then 1
      else 0
  {
    if ReadyToMigrate(events[k].db) {
      FiredAtTheCall(events, sub, k);
    } else {
      forall i | k < i < |events|
        ensures Ends(events[i], sub) <==> ShowsIdle(events[i], sub)
        ensures ShowsIdle(events[i], sub) ==> Fires(sub, events[i].n)
      {
        if events[i].Status? {
          ResponseShows(events[i].n, sub.dbName, sub.instName);
        }
      }
      if i :| k < i < |events| && Ends(events[i], sub) {
        var j := FirstEnd(events, sub, k, i);
        FiresOnceAtItsFirstEnd(events, sub, k, j);
      } else {
        StaysUntilItEnds(events, sub, k);
      }
    }
  }

  /** The event reports (Idle, Done) of the database watched for. */
  predicate ShowsIdle(ev: Event, sub: Subscriber)
    requires sub.MigrateOutWatch?
  {
    ev.Status? && ev.n.Shows(Lifecycle.Idle, sub.dbName, sub.instName)
  }

  lemma FirstEnd(events: seq<Event>, sub: Subscriber, k: nat, i: nat) returns (j: nat)
    requires k < i < |events| && Ends(events[i], sub)
    ensures k < j < |events| && Ends(events[j], sub) && forall m :: k < m < j ==> !Ends(events[m], sub)
  {
    j := k + 1;
    while !Ends(events[j], sub)
      invariant k < j <= i && forall m :: k < m < j ==> !Ends(events[m], sub)
      decreases i - j
    {
      j := j + 1;
    }
  }

  lemma {:induction false} FiredAtTheCall(events: seq<Event>, sub: Subscriber, k: nat)
    requires BroughtOnce(events, sub, k) && AtOnce(events[k])
    ensures sub !in After(events).subs && multiset(After(events).fired)[sub] == 1
  {
    var before, ev := events[..|events| - 1], events[|events| - 1];
    if k == |events| - 1 {
      NothingBeforeItCame(before, sub);
    } else {
      assert forall i :: 0 <= i < |before| ==> before[i] == events[i];
      FiredAtTheCall(before, sub, k);
      assert !Brings(ev, sub);
      OtherEvent(After(before), ev, sub);
    }
  }

  /** The row as it stood at some moment of some run of the workers racing for it. */
  ghost predicate Committed(row: Lifecycle.Row) {
    exists run, stamp :: Lifecycle.IsRun(run, stamp) && Lifecycle.After(run, stamp).row == row
  }

  /**
   * No run of the workers commits (Idle, Done), so a MigrateOut that had to send its job never runs its callback:
   * its database is never created on the instance it migrates to.
   */
  lemma {:induction false} MigrateOutNeverCallsBack(events: seq<Event>, sub: Subscriber, k: nat)
    requires BroughtOnce(events, sub, k) && events[k].MigrateOut? && sub.MigrateOutWatch?
    requires !ReadyToMigrate(events[k].db)
    requires forall i :: 0 <= i < |events| && events[i].Status? ==> Committed(events[i].n.db.row)
    ensures sub !in After(events).fired
  {
    forall i | k < i < |events|
      ensures !ShowsIdle(events[i], sub)
    {
      if events[i].Status? {
        var run, stamp :| Lifecycle.IsRun(run, stamp) && Lifecycle.After(run, stamp).row == events[i].n.db.row;
        Lifecycle.MigrateOutNeverCompletes(run, stamp);
      }
    }
    MigrateOutFiresAtMostOnce(events, sub, k);
  }

  /** The notice is the ready status and comes before the timeout. */
  predicate ReadyInTime(ev: Event, sub: Subscriber)
    requires sub.ReadyWatch?
  {
    ev.Status? && ev.n.Shows(Lifecycle.ReadyToUse, sub.dbName, sub.instName) && sub.id !in ev.n.expired
  }

  predicate TimedOut(ev: Event, sub: Subscriber) {
    ev.Status? && Offered(ev.n.db) && sub.id in ev.n.expired
  }

  /** The ready status of event j comes in time: no notice since k has found the waiter timed out. */
  ghost predicate AnsweredAt(events: seq<Event>, sub: Subscriber, k: nat, j: nat)
    requires sub.ReadyWatch?
  {
    k < j < |events| && ReadyInTime(events[j], sub) && forall i :: k < i < j ==> !TimedOut(events[i], sub)
  }

  lemma WatchEnds(ev: Event, sub: Subscriber)
    requires sub.ReadyWatch?
    ensures Ends(ev, sub) <==> ReadyInTime(ev, sub) || TimedOut(ev, sub)
    ensures ev.Status? ==> (Fires(sub, ev.n) <==> ReadyInTime(ev, sub))
    ensures !(ReadyInTime(ev, sub) && TimedOut(ev, sub))
  {
    if ev.Status? {
      ResponseShows(ev.n, sub.dbName, sub.instName);
    }
  }

  /** The first notice that ends the wait decides the answer. */
  lemma FirstEndDecides(events: seq<Event>, sub: Subscriber, k: nat, j: nat)
    requires sub.ReadyWatch? && k < j < |events| && Ends(events[j], sub)
    requires forall i :: k < i < j ==> !Ends(events[i], sub)
    ensures Fires(sub, events[j].n) <==> exists m: nat :: AnsweredAt(events, sub, k, m)
  {
    forall i | 0 <= i < |events|
      ensures Ends(events[i], sub) <==> ReadyInTime(events[i], sub) || TimedOut(events[i], sub)
    {
      WatchEnds(events[i], sub);
    }
    WatchEnds(events[j], sub);
    if ReadyInTime(events[j], sub) {
      assert AnsweredAt(events, sub, k, j);
    } else {
      assert TimedOut(events[j], sub);
    }
  }

  lemma NoEndNoAnswer(events: seq<Event>, sub: Subscriber, k: nat)
    requires sub.ReadyWatch? && forall i :: k < i < |events| ==> !Ends(events[i], sub)
    ensures !exists m: nat :: AnsweredAt(events, sub, k, m)
  {
    forall m: nat | k < m < |events|
      ensures !ReadyInTime(events[m], sub)
    {
      WatchEnds(events[m], sub);
    }
  }

  /** The first look of a waiter that has not subscribed: answered at once, and once, exactly if it finds it ready. */
  lemma {:induction false} LookAnswers(events: seq<Event>, sub: Subscriber, look: nat)
    requires look < |events| && events[look].Look? && events[look].watch == sub
    requires forall i :: 0 <= i < |events| && Brings(events[i], sub) ==> i == look
    ensures multiset(After(events).fired)[sub] ==
            if events[look].db == Some(Lifecycle.Row(Lifecycle.ReadyToUse, Lifecycle.Done)) then 1 else 0
  {
    if AtOnce(events[look]) {
      FiredAtTheCall(events, sub, look);
    } else {
      NothingBeforeItCame(events, sub);
    }
  }

  /** WaitReady has looked at event look, found the database not ready, and subscribed at event k. */
  ghost predicate Waits(events: seq<Event>, sub: Subscriber, look: nat, k: nat) {
    && sub.ReadyWatch? && look < k && BroughtOnce(events, sub, k) && events[k] == Subscribe(sub)
    && events[look].Look? && events[look].watch == sub && !IsReadyToUse(events[look].db)
  }

  /**
   * It reports ready exactly when the ready status comes after it has subscribed, before any notice that finds it
   * timed out.
   */
  lemma WaitReadyAnswers(events: seq<Event>, sub: Subscriber, look: nat, k: nat)
    requires Waits(events, sub, look, k)
    ensures sub in After(events).fired <==> exists j: nat :: AnsweredAt(events, sub, k, j)
  {
    if i :| k < i < |events| && Ends(events[i], sub) {
      var j := FirstEnd(events, sub, k, i);
      FiresOnceAtItsFirstEnd(events, sub, k, j);
      FirstEndDecides(events, sub, k, j);
    } else {
      StaysUntilItEnds(events, sub, k);
      NoEndNoAnswer(events, sub, k);
    }
  }

  /**
   * What is missed: a ready status in time for a subscription made at the look is not reported exactly when it came
   * between the look and the subscription, and none came in time after.
   */
  lemma MissedIff(events: seq<Event>, sub: Subscriber, look: nat, k: nat)
    requires Waits(events, sub, look, k)
    ensures (exists j: nat :: AnsweredAt(events, sub, look, j)) && sub !in After(events).fired <==>
              && (exists j: nat :: j < k && AnsweredAt(events, sub, look, j))
              && !exists j: nat :: AnsweredAt(events, sub, k, j)
  {
    WaitReadyAnswers(events, sub, look, k);
    forall j: nat | k <= j && AnsweredAt(events, sub, look, j)
      ensures AnsweredAt(events, sub, k, j)
    {
      assert j != k;
    }
  }

  // ---------- The source handler is always told ----------

  /** The event reports a failure, or the end of a creation, a migration or a removal. */
  predicate TellsAll(ev: Event) {
    ev.Status? &&
    (|| ev.n.db.row.status == Lifecycle.Failed
     || ev.n.db.row == Lifecycle.Row(Lifecycle.ReadyToUse, Lifecycle.Done)
     || ev.n.db.row == Lifecycle.Row(Lifecycle.Idle, Lifecycle.Done)
     || ev.n.db.row == Lifecycle.Row(Lifecycle.DropDatabase, Lifecycle.Done))
  }

  /** How many of these events tell. */
  function Tellings(events: seq<Event>): nat {
    if events == [] then 0
    else Tellings(events[..|events| - 1]) + if TellsAll(events[|events| - 1]) then 1 else 0
  }

  lemma {:induction false} NotCalledBefore(events: seq<Event>, sub: Subscriber)
    requires forall i :: 0 <= i < |events| ==> !Brings(events[i], sub)
    ensures multiset(After(events).called)[sub] == 0
  {
    if events == [] {
    } else {
      var before, ev := events[..|events| - 1], events[|events| - 1];
      NothingBeforeItCame(before, sub);
      NotCalledBefore(before, sub);
      CalledStep(After(before), ev, sub);
    }
  }

  lemma CalledStep(s: State, ev: Event, sub: Subscriber)
    ensures multiset(Step(s, ev).called)[sub] ==
            multiset(s.called)[sub] + if TellsAll(ev) then multiset(s.subs)[sub] else 0
  {
  }

  /** The source handler's closure stays subscribed, and is called once for each such event from then on. */
  lemma {:induction false} SourceIsAlwaysTold(events: seq<Event>, sub: Subscriber, k: nat)
    requires sub.Source? && BroughtOnce(events, sub, k) && !AtOnce(events[k])
    ensures multiset(After(events).subs)[sub] == 1
    ensures multiset(After(events).called)[sub] == Tellings(events[k + 1..])
  {
    var before, ev := events[..|events| - 1], events[|events| - 1];
    StaysUntilItEnds(events, sub, k);
    CalledStep(After(before), ev, sub);
    if k == |events| - 1 {
      NothingBeforeItCame(before, sub);
      NotCalledBefore(before, sub);
    } else {
      assert forall i :: 0 <= i < |before| ==> before[i] == events[i];
      SourceIsAlwaysTold(before, sub, k);
      TellingsGrow(events, k + 1);
    }
  }

  lemma TellingsGrow(events: seq<Event>, from: nat)
    requires from < |events|
    ensures Tellings(events[from..]) ==
            Tellings(events[..|events| - 1][from..]) + if TellsAll(events[|events| - 1]) then 1 else 0
  {
    assert events[from..][..|events| - from - 1] == events[..|events| - 1][from..];
  }
}
