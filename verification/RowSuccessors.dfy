/**
 * Which row can follow which in the table dbs, in plain stages and statuses: a literal table, complete in both
 * directions for every run of the workers of Lifecycle.
 */
module RowSuccessors {

  import opened Lifecycle

  /** A worker of this kind may commit b when the row is a. */
  predicate Succeeds(kind: Kind, a: Row, b: Row) {
    match kind
    case UserTask =>
      || (a.stage in {None, CreateUser} && b == Row(CreateUser, Processing))
      || (a == Row(CreateUser, Processing) && b in {Row(CreateUser, Done), Row(CreateUser, Failed)})
    case CreateTask =>
      || (a.stage in {None, CreateUser, CreateDatabase} && b == Row(CreateDatabase, Processing))
      || (a == Row(CreateDatabase, Processing) && b in {Row(CreateDatabase, Done), Row(CreateDatabase, Failed)})
    case BackupTask =>
      || (a in {Row(CreateDatabase, Done), Row(BackupDatabase, Failed)} && b == Row(BackupDatabase, Processing))
      || (a == Row(BackupDatabase, Processing) && b in {Row(BackupDatabase, Done), Row(BackupDatabase, Failed)})
    case RestoreTask =>
      || (a in {Row(CreateDatabase, Done), Row(RestoreDatabase, Done)} && b == Row(RestoreDatabase, Processing))
      || (a == Row(RestoreDatabase, Processing) && b in {Row(RestoreDatabase, Done), Row(RestoreDatabase, Failed)})
    case WaitReadyTask =>
      a in {Row(CreateDatabase, Done), Row(RestoreDatabase, Done)} && b == Row(ReadyToUse, Done)
    case MigrateOutTask =>
      false
    case MigrateOutRequest =>
      a == Row(ReadyToUse, Done) && b == Row(Idle, Processing)
  }

  /** The same table row by row. */
  function Successors(a: Row): set<Row> {
    match a
    case Row(None, _) => {Row(CreateUser, Processing), Row(CreateDatabase, Processing)}
    case Row(CreateUser, Processing) =>
      {Row(CreateUser, Processing), Row(CreateDatabase, Processing), Row(CreateUser, Done), Row(CreateUser, Failed)}
    case Row(CreateUser, _) => {Row(CreateUser, Processing), Row(CreateDatabase, Processing)}
    case Row(CreateDatabase, Processing) =>
      {Row(CreateDatabase, Processing), Row(CreateDatabase, Done), Row(CreateDatabase, Failed)}
    case Row(CreateDatabase, Failed) => {Row(CreateDatabase, Processing)}
    case Row(CreateDatabase, Done) =>
      {Row(CreateDatabase, Processing), Row(BackupDatabase, Processing), Row(RestoreDatabase, Processing),
       Row(ReadyToUse, Done)}
    case Row(BackupDatabase, Processing) => {Row(BackupDatabase, Done), Row(BackupDatabase, Failed)}
    case Row(BackupDatabase, Failed) => {Row(BackupDatabase, Processing)}
    case Row(RestoreDatabase, Processing) => {Row(RestoreDatabase, Done), Row(RestoreDatabase, Failed)}
    case Row(RestoreDatabase, Done) => {Row(RestoreDatabase, Processing), Row(ReadyToUse, Done)}
    case Row(ReadyToUse, _) => {Row(Idle, Processing)}
    case _ => {}
  }

  /** The event e comes after the run and commits b; its worker is of this kind. */
  ghost predicate Writes(run: seq<Event>, stamp: nat, e: Event, kind: Kind, b: Row) {
    && IsRun(run, stamp) && Enabled(After(run, stamp), e)
    && e.w in After(run, stamp).workers && After(run, stamp).workers[e.w].kind == kind
    && Apply(After(run, stamp), e).history == After(run, stamp).history + [b]
  }

  /** Some continuation commits b as the next row, by a worker of this kind. */
  ghost predicate CanFollow(run: seq<Event>, stamp: nat, kind: Kind, b: Row)
    requires IsRun(run, stamp)
  {
    exists more, e :: Writes(run + more, stamp, e, kind, b) &&
      After(run + more, stamp).history == After(run, stamp).history
  }

  // ---------- What follows is in the table ----------

  /** A row without a stage is new, a ready one is done, an idle one is not. */
  ghost predicate Shaped(a: Row) {
    && (a.stage == None ==> a == Row(None, Processing))
    && (a.stage == ReadyToUse ==> a.status == Done)
    && (a.stage == Idle ==> a.status == Processing)
    && a.stage != DropDatabase
  }

  lemma {:induction false} RowsAreShaped(run: seq<Event>, stamp: nat)
    requires IsRun(run, stamp)
    ensures Shaped(After(run, stamp).row)
  {
    if run == [] {
    } else {
      var before, e := run[..|run| - 1], run[|run| - 1];
      RowsAreShaped(before, stamp);
      ReachableInv(before, stamp);
      ShapedStep(After(before, stamp), e);
    }
  }

  lemma ShapedStep(s: State, e: Event)
    requires Inv(s) && Enabled(s, e) && Shaped(s.row)
    ensures Shaped(Apply(s, e).row)
  {
    if !e.Spawn? {
      assert WorkerOk(s, e.w) && RequestOk(s, e.w);
    }
  }

  lemma CommitIsInTheTable(s: State, e: Event, b: Row)
    requires Inv(s) && Enabled(s, e) && Shaped(s.row) && e.w in s.workers
    requires Apply(s, e).history == s.history + [b]
    ensures Succeeds(s.workers[e.w].kind, s.row, b)
  {
    assert WorkerOk(s, e.w) && RequestOk(s, e.w);
    assert (s.history + [b])[|s.history|] == b;
    assert |Apply(s, e).history| == |s.history| + 1;
  }

  // ---------- What is in the table follows ----------

  /** Somebody is at work on every row that says so. */
  ghost predicate AtWork(s: State, w: nat) {
    w in s.workers && s.workers[w].phase == Busy && s.workers[w].db == Db(s.row, s.updatedAt)
  }

  ghost predicate SomebodyAtWork(s: State) {
    s.row.status == Processing && s.row.stage in {CreateUser, CreateDatabase, BackupDatabase, RestoreDatabase} ==>
      exists w :: AtWork(s, w)
  }

  lemma {:induction false} ProcessingIsAtWork(run: seq<Event>, stamp: nat)
    requires IsRun(run, stamp)
    ensures SomebodyAtWork(After(run, stamp))
  {
    if run == [] {
    } else {
      var before, e := run[..|run| - 1], run[|run| - 1];
      ProcessingIsAtWork(before, stamp);
      ReachableInv(before, stamp);
      AtWorkStep(After(before, stamp), e);
    }
  }

  lemma AtWorkStep(s: State, e: Event)
    requires Inv(s) && Enabled(s, e) && SomebodyAtWork(s)
    ensures SomebodyAtWork(Apply(s, e))
  {
    var s' := Apply(s, e);
    if !e.Spawn? {
      assert WorkerOk(s, e.w) && RequestOk(s, e.w);
    }
    if s'.updatedAt != s.updatedAt {
      assert s'.row.status == Processing && s'.row.stage != Idle && s'.row.stage != None ==> AtWork(s', e.w);
    } else if w :| AtWork(s, w) {
      assert s'.row == s.row ==> AtWork(s', w);
    }
  }

  lemma FreshNat(used: set<nat>) returns (n: nat)
    ensures n !in used
  {
    n := 0;
    var below := {};
    while n in used
      invariant below <= used && |below| == n && forall i: nat :: i < n <==> i in below
      decreases used - below
    {
      below := below + {n};
      n := n + 1;
    }
  }

  /** A new worker reads the row and claims it. */
  lemma ClaimFollows(run: seq<Event>, stamp: nat, kind: Kind, b: Row)
    requires IsRun(run, stamp) && kind != MigrateOutTask
    requires Admits(kind, After(run, stamp).row) && b == FirstWrite(kind, After(run, stamp).row)
    ensures CanFollow(run, stamp, kind, b)
  {
    var s := After(run, stamp);
    var w := FreshNat(s.workers.Keys);
    var next := FreshNat(s.used);
    var longer := StartStep(run, stamp, w, kind);
    assert Writes(run + [Spawn(w, kind), Read(w)], stamp, Claim(w, next), kind, b);
  }

  /** The worker that is at work ends. */
  lemma {:induction false} FinishFollows(run: seq<Event>, stamp: nat, kind: Kind, ok: bool)
    requires IsRun(run, stamp) && WritesTwice(kind) && After(run, stamp).row == FirstWrite(kind, Row(None, Processing))
    ensures CanFollow(run, stamp, kind, After(run, stamp).row.(status := if ok then Done else Failed))
  {
    ProcessingIsAtWork(run, stamp);
    ReachableInv(run, stamp);
    var s := After(run, stamp);
    var w :| AtWork(s, w);
    assert WorkerOk(s, w);
    var next := FreshNat(s.used);
    assert run + [] == run;
    assert Writes(run + [], stamp, Finish(w, next, ok), kind, s.row.(status := if ok then Done else Failed));
  }

  lemma TableFollows(run: seq<Event>, stamp: nat, kind: Kind, b: Row)
    requires IsRun(run, stamp) && Succeeds(kind, After(run, stamp).row, b)
    ensures CanFollow(run, stamp, kind, b)
  {
    var a := After(run, stamp).row;
    if b.status != Processing && b.stage != ReadyToUse {
      FinishFollows(run, stamp, kind, b.status == Done);
    } else {
      ClaimFollows(run, stamp, kind, b);
    }
  }

  // ---------- Main results ----------

  /** After any run, a worker of a kind can commit b as the next row exactly when the table says so. */
  lemma SuccessorByKindIff(run: seq<Event>, stamp: nat, kind: Kind, b: Row)
    requires IsRun(run, stamp)
    ensures CanFollow(run, stamp, kind, b) <==> Succeeds(kind, After(run, stamp).row, b)
  {
    if CanFollow(run, stamp, kind, b) {
      var more, e :| Writes(run + more, stamp, e, kind, b) &&
        After(run + more, stamp).history == After(run, stamp).history;
      ReachableInv(run, stamp);
      ReachableInv(run + more, stamp);
      RowsAreShaped(run + more, stamp);
      CommitIsInTheTable(After(run + more, stamp), e, b);
    }
    if Succeeds(kind, After(run, stamp).row, b) {
      TableFollows(run, stamp, kind, b);
    }
  }

  /** The kind of worker behind an entry of the table. */
  lemma KindFor(a: Row, b: Row) returns (kind: Kind)
    requires Shaped(a) && b in Successors(a)
    ensures Succeeds(kind, a, b)
  {
    kind := match b.stage
      case CreateUser => UserTask
      case CreateDatabase => CreateTask
      case BackupDatabase => BackupTask
      case RestoreDatabase => RestoreTask
      case ReadyToUse => WaitReadyTask
      case _ => MigrateOutRequest;
  }

  lemma {:induction false} HistoryGrows(run: seq<Event>, stamp: nat, more: seq<Event>)
    requires IsRun(run, stamp) && IsRun(run + more, stamp)
    ensures After(run, stamp).history <= After(run + more, stamp).history
  {
    if more == [] {
      assert run + more == run;
    } else {
      assert (run + more)[..|run + more| - 1] == run + more[..|more| - 1];
      HistoryGrows(run, stamp, more[..|more| - 1]);
    }
  }

  lemma EventCommitsOneAtMost(s: State, e: Event, rows: seq<Row>, b: Row)
    requires Enabled(s, e) && rows <= s.history && Apply(s, e).history == rows + [b]
    ensures s.history == rows + [b] || (s.history == rows && e.w in s.workers)
  {
    var s' := Apply(s, e);
    assert s'.history == s.history || s'.history == s.history + [s'.row];
    if s'.history != s.history {
      assert |s.history| == |rows|;
    }
  }

  /** A continuation that commits one row more commits it at one of its events. */
  lemma {:induction false} LastCommit(run: seq<Event>, stamp: nat, more: seq<Event>, b: Row) returns (kind: Kind)
    requires IsRun(run, stamp) && IsRun(run + more, stamp)
    requires After(run + more, stamp).history == After(run, stamp).history + [b]
    ensures CanFollow(run, stamp, kind, b)
  {
    var rows := After(run, stamp).history;
    assert run + [] == run;
    if more != [] {
      var fewer, e := more[..|more| - 1], more[|more| - 1];
      assert (run + more)[..|run + more| - 1] == run + fewer;
      var before := After(run + fewer, stamp);
      HistoryGrows(run, stamp, fewer);
      EventCommitsOneAtMost(before, e, rows, b);
      if before.history == rows + [b] {
        kind := LastCommit(run, stamp, fewer, b);
      } else {
        kind := before.workers[e.w].kind;
        assert Writes(run + fewer, stamp, e, kind, b);
      }
    }
  }

  lemma NextIsSuccessor(run: seq<Event>, stamp: nat, more: seq<Event>, b: Row)
    requires IsRun(run, stamp) && IsRun(run + more, stamp)
    requires After(run + more, stamp).history == After(run, stamp).history + [b]
    ensures b in Successors(After(run, stamp).row)
  {
    var kind := LastCommit(run, stamp, more, b);
    SuccessorByKindIff(run, stamp, kind, b);
    RowsAreShaped(run, stamp);
    KindsAndRows(kind, After(run, stamp).row, b);
  }

  lemma KindsAndRows(kind: Kind, a: Row, b: Row)
    requires Shaped(a) && Succeeds(kind, a, b)
    ensures b in Successors(a)
  {
    match kind
    case UserTask =>
    case CreateTask =>
    case BackupTask =>
    case RestoreTask =>
    case _ =>
  }

  lemma SuccessorIsNext(run: seq<Event>, stamp: nat, b: Row) returns (more: seq<Event>)
    requires IsRun(run, stamp) && b in Successors(After(run, stamp).row)
    ensures IsRun(run + more, stamp) && After(run + more, stamp).history == After(run, stamp).history + [b]
  {
    RowsAreShaped(run, stamp);
    var kind := KindFor(After(run, stamp).row, b);
    TableFollows(run, stamp, kind, b);
    var fewer, e :| Writes(run + fewer, stamp, e, kind, b) &&
      After(run + fewer, stamp).history == After(run, stamp).history;
    OneMore(run + fewer, stamp, e);
    more := fewer + [e];
    assert (run + fewer) + [e] == run + more;
  }

  /** Some continuation commits b as the very next row. */
  ghost predicate CanBeNext(run: seq<Event>, stamp: nat, b: Row)
    requires IsRun(run, stamp)
  {
    exists more :: IsRun(run + more, stamp) && After(run + more, stamp).history == After(run, stamp).history + [b]
  }

  /** After any run, the rows that some continuation commits next are exactly the successors of the row. */
  lemma SuccessorIff(run: seq<Event>, stamp: nat, b: Row)
    requires IsRun(run, stamp)
    ensures CanBeNext(run, stamp, b) <==> b in Successors(After(run, stamp).row)
  {
    if CanBeNext(run, stamp, b) {
      var more :| IsRun(run + more, stamp) && After(run + more, stamp).history == After(run, stamp).history + [b];
      NextIsSuccessor(run, stamp, more, b);
    }
    if b in Successors(After(run, stamp).row) {
      var more := SuccessorIsNext(run, stamp, b);
    }
  }

  /**
   * A worker whose first write has not matched goes on as if it had: it does its work, and may finish. Only what it
   * writes then is lost.
   */
  lemma LoserStillWorks(run: seq<Event>, stamp: nat, w: nat, first: nat, last: nat, ok: bool)
    requires IsRun(run, stamp) && Enabled(After(run, stamp), Claim(w, first))
    requires After(run, stamp).workers[w].kind in {UserTask, CreateTask, BackupTask, RestoreTask}
    requires last !in After(run, stamp).used && last != first
    ensures var s1 := Apply(After(run, stamp), Claim(w, first));
      && Enabled(s1, Finish(w, last, ok))
      && (s1.workers[w].lost <==> After(run, stamp).workers[w].db.updatedAt != After(run, stamp).updatedAt)
      && (s1.workers[w].lost ==> Apply(s1, Finish(w, last, ok)).history == After(run, stamp).history)
  {
    ReachableInv(run, stamp);
    assert WorkerOk(After(run, stamp), w);
  }
}
