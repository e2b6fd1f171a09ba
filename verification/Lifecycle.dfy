/**
 * The life of one row of the table dbs: the guards of internal/db/db_utils.go, the writes of the task
 * steps in internal/handler/db_task and of the migrate-out request, and the compare-and-set on
 * updated_at that SetDbStatus makes (internal/db/queries/dbs.sql).
 */
module Lifecycle {

  datatype Stage =
    | None | CreateUser | CreateDatabase | BackupDatabase | RestoreDatabase | ReadyToUse | Idle | DropDatabase
  {
    /** The numbering of pkg/proto/db_task.proto. */
    function Rank(): nat {
      match this
      case None => 0
      case CreateUser => 1
      case CreateDatabase => 2
      case BackupDatabase => 3
      case RestoreDatabase => 4
      case ReadyToUse => 5
      case Idle => 6
      case DropDatabase => 7
    }
  }

  datatype Status = Processing | Done | Failed

  datatype Row = Row(stage: Stage, status: Status) {
    predicate IsAlreadyIdle() {
      this == Row(Idle, Done) || stage == DropDatabase
    }

    predicate IsNotExist() {
      stage == None
    }

    predicate IsReadyToUse() {
      stage == ReadyToUse && status == Done
    }

    predicate CanRestore() {
      status == Done && (stage == CreateDatabase || stage == RestoreDatabase)
    }

    predicate ShouldBackup() {
      (stage == CreateDatabase && status == Done) || (stage == BackupDatabase && status == Failed)
    }
  }

  /** What an insert leaves: both columns default to 0. */
  const NEW_ROW := Row(None, Processing)

  datatype Kind = UserTask | CreateTask | BackupTask | RestoreTask | WaitReadyTask | MigrateOutTask | MigrateOutRequest

  /** The rows on which a worker acts; on any other it returns without writing. */
  predicate Admits(k: Kind, row: Row) {
    match k
    case UserTask => row.IsNotExist() || row.stage == CreateUser
    case CreateTask => row.IsNotExist() || row.stage == CreateUser || row.stage == CreateDatabase
    case BackupTask => row.ShouldBackup()
    case RestoreTask => row.CanRestore()
    case WaitReadyTask => row.status == Done && (row.stage == CreateDatabase || row.stage == RestoreDatabase)
    case MigrateOutTask => row.IsReadyToUse()
    case MigrateOutRequest => row.IsReadyToUse()
  }

  /** The first write of a worker that read row. */
  function FirstWrite(k: Kind, row: Row): Row {
    match k
    case UserTask => Row(CreateUser, Processing)
    case CreateTask => Row(CreateDatabase, Processing)
    case BackupTask => Row(BackupDatabase, Processing)
    case RestoreTask => Row(RestoreDatabase, Processing)
    case WaitReadyTask => row.(stage := ReadyToUse)
    case MigrateOutTask => Row(Idle, Done)
    case MigrateOutRequest => Row(Idle, Processing)
  }

  /** Steps that write a second time, when their external work is over. */
  predicate WritesTwice(k: Kind) {
    k == UserTask || k == CreateTask || k == BackupTask || k == RestoreTask
  }

  // ---------- The sequential life of a row ----------

  ghost predicate Edge(a: Row, b: Row) {
    || (exists k :: Admits(k, a) && b == FirstWrite(k, a))
    || (exists k :: WritesTwice(k) && a == FirstWrite(k, a) && b.stage == a.stage && b.status != Processing)
  }

  ghost predicate IsWalk(rows: seq<Row>) {
    && rows != [] && rows[0] == NEW_ROW
    && forall i :: 0 <= i < |rows| - 1 ==> Edge(rows[i], rows[i + 1])
  }

  // ---------- Workers racing for the row ----------

  /** A worker's copy of the row, as fetched and then written to. */
  datatype Db = Db(row: Row, updatedAt: nat)

  datatype Phase = Started | Refused | Admitted | Busy | Ended

  /** lost: the first write did not match. */
  datatype Worker = Worker(kind: Kind, phase: Phase, db: Db, lost: bool)

  datatype State = State(
    row: Row,
    updatedAt: nat,
    used: set<nat>,           // every updated_at the row ever had
    workers: map<nat, Worker>,
    history: seq<Row>)        // the committed rows, oldest first

  datatype Event =
    | Spawn(w: nat, kind: Kind)
    | Read(w: nat)
    | Claim(w: nat, stamp: nat)
    | Finish(w: nat, stamp: nat, ok: bool)

  const NO_COPY := Db(NEW_ROW, 0)

  function Initial(stamp: nat): State {
    State(NEW_ROW, stamp, {stamp}, map[], [NEW_ROW])
  }

  /** SetDbStatus: the row changes only where updated_at still matches. */
  function CompareAndSet(s: State, db: Db, stamp: nat): State {
    if s.updatedAt == db.updatedAt then
      s.(row := db.row, updatedAt := stamp, used := s.used + {stamp}, history := s.history + [db.row])
    else s
  }

  /** UpdateDbStatus: the copy follows the row only when the write matched. */
  function Written(s: State, db: Db, stamp: nat): Db {
    if s.updatedAt == db.updatedAt then db.(updatedAt := stamp) else db
  }

  function SetWorker(s: State, w: nat, x: Worker): State {
    s.(workers := s.workers[w := x])
  }

  function ReadRow(s: State, w: nat): State
    requires w in s.workers
  {
    var x := s.workers[w];
    SetWorker(s, w, x.(phase := if Admits(x.kind, s.row) then Admitted else Refused, db := Db(s.row, s.updatedAt)))
  }

  /** The first write. Its error is ignored: the worker goes on either way. */
  function ClaimRow(s: State, w: nat, stamp: nat): State
    requires w in s.workers
  {
    var x := s.workers[w];
    var db := x.db.(row := FirstWrite(x.kind, x.db.row));
    SetWorker(CompareAndSet(s, db, stamp), w,
              x.(phase := if WritesTwice(x.kind) then Busy else Ended,
                 db := Written(s, db, stamp), lost := s.updatedAt != db.updatedAt))
  }

  /** setFinalDbStatus. */
  function FinishRow(s: State, w: nat, stamp: nat, ok: bool): State
    requires w in s.workers
  {
    var x := s.workers[w];
    var db := x.db.(row := x.db.row.(status := if ok then Done else Failed));
    SetWorker(CompareAndSet(s, db, stamp), w, x.(phase := Ended, db := Written(s, db, stamp)))
  }

  /** The migrate-out task is created by a request, after the request's write. */
  ghost predicate Enabled(s: State, e: Event) {
    match e
    case Spawn(w, kind) =>
      w !in s.workers &&
      (kind == MigrateOutTask ==>
         exists r :: r in s.workers && s.workers[r].kind == MigrateOutRequest && s.workers[r].phase == Ended)
    case Read(w) => w in s.workers && s.workers[w].phase == Started
    // A successful update gives the row an updated_at it never had.
    case Claim(w, stamp) => w in s.workers && s.workers[w].phase == Admitted && stamp !in s.used
    case Finish(w, stamp, _) => w in s.workers && s.workers[w].phase == Busy && stamp !in s.used
  }

  function Apply(s: State, e: Event): State
    requires !e.Spawn? ==> e.w in s.workers
  {
    match e
    case Spawn(w, kind) => SetWorker(s, w, Worker(kind, Started, NO_COPY, false))
    case Read(w) => ReadRow(s, w)
    case Claim(w, stamp) => ClaimRow(s, w, stamp)
    case Finish(w, stamp, ok) => FinishRow(s, w, stamp, ok)
  }

  ghost predicate IsRun(run: seq<Event>, stamp: nat)
    decreases |run|, 0
  {
    run == [] || (IsRun(run[..|run| - 1], stamp) && Enabled(After(run[..|run| - 1], stamp), run[|run| - 1]))
  }

  ghost function After(run: seq<Event>, stamp: nat): State
    requires IsRun(run, stamp)
    decreases |run|, 1
  {
    if run == [] then Initial(stamp) else Apply(After(run[..|run| - 1], stamp), run[|run| - 1])
  }

  // ---------- The invariant ----------

  /** A copy whose updated_at is still the row's is a copy of the row; a worker that lost can never match again. */
  ghost predicate WorkerOk(s: State, w: nat)
    requires w in s.workers
  {
    var x := s.workers[w];
    if x.phase == Started then !x.lost
    else
      && x.db.updatedAt in s.used
      && (x.db.updatedAt == s.updatedAt ==> x.db.row == s.row)
      && (x.lost ==> x.db.updatedAt != s.updatedAt)
      && (x.phase == Admitted ==> Admits(x.kind, x.db.row) && !x.lost)
      && (x.phase == Busy ==> WritesTwice(x.kind) && x.db.row == FirstWrite(x.kind, x.db.row))
  }

  /** Once a migrate-out request has got past its guard, the row is ReadyToUse as the request read it, or Idle. */
  ghost predicate RequestOk(s: State, w: nat)
    requires w in s.workers
  {
    var x := s.workers[w];
    && (x.kind == MigrateOutRequest && x.phase == Admitted && x.db.updatedAt != s.updatedAt ==> s.row.stage == Idle)
    && (x.kind == MigrateOutRequest && x.phase == Ended ==> s.row.stage == Idle)
    && (x.kind == MigrateOutTask ==> s.row.stage == Idle && (x.phase == Started || x.phase == Refused))
    && (x.phase == Ended && !WritesTwice(x.kind) ==> x.db.row == FirstWrite(x.kind, x.db.row))
  }

  ghost predicate Inv(s: State) {
    && s.updatedAt in s.used
    && IsWalk(s.history) && s.history[|s.history| - 1] == s.row
    && (forall w {:trigger WorkerOk(s, w)} :: w in s.workers ==> WorkerOk(s, w))
    && (forall w {:trigger RequestOk(s, w)} :: w in s.workers ==> RequestOk(s, w))
    && s.row != Row(Idle, Done)
  }

  lemma WalkGrows(rows: seq<Row>, row: Row)
    requires IsWalk(rows) && Edge(rows[|rows| - 1], row)
    ensures IsWalk(rows + [row])
  {
    var longer := rows + [row];
    forall i | 0 <= i < |longer| - 1
      ensures Edge(longer[i], longer[i + 1])
    {
      if i < |rows| - 1 {
        assert Edge(rows[i], rows[i + 1]);
      }
    }
  }

  /** Idle is final, and a row leaves (ReadyToUse, Done) only for Idle. */
  lemma LastStages(a: Row, b: Row)
    requires Edge(a, b)
    ensures a.stage != Idle
    ensures a.stage == ReadyToUse ==> a.status == Done && b.stage == Idle
  {
  }

  lemma ReadKeepsInv(s: State, w: nat)
    requires Inv(s) && Enabled(s, Read(w))
    ensures Inv(ReadRow(s, w))
  {
    var s' := ReadRow(s, w);
    assert WorkerOk(s, w) && RequestOk(s, w);
    forall v | v in s'.workers
      ensures WorkerOk(s', v) && RequestOk(s', v)
    {
      if v != w {
        assert WorkerOk(s, v) && RequestOk(s, v);
      }
    }
  }

  lemma SpawnKeepsInv(s: State, w: nat, kind: Kind)
    requires Inv(s) && Enabled(s, Spawn(w, kind))
    ensures Inv(Apply(s, Spawn(w, kind)))
  {
    var s' := Apply(s, Spawn(w, kind));
    if kind == MigrateOutTask {
      var r :| r in s.workers && s.workers[r].kind == MigrateOutRequest && s.workers[r].phase == Ended;
      assert RequestOk(s, r);
    }
    forall v | v in s'.workers
      ensures WorkerOk(s', v) && RequestOk(s', v)
    {
      if v != w {
        assert WorkerOk(s, v) && RequestOk(s, v);
      }
    }
  }

  /** A write that matches moves the row along an edge, and no other worker's copy matches the new row. */
  lemma OthersAfterWrite(s: State, db: Db, stamp: nat, v: nat)
    requires Inv(s) && v in s.workers && stamp !in s.used
    requires s.updatedAt == db.updatedAt ==> Edge(s.row, db.row)
    ensures WorkerOk(CompareAndSet(s, db, stamp), v) && RequestOk(CompareAndSet(s, db, stamp), v)
  {
    assert WorkerOk(s, v) && RequestOk(s, v);
    if s.updatedAt == db.updatedAt {
      LastStages(s.row, db.row);
    }
  }

  lemma ClaimIsEdge(s: State, w: nat)
    requires Inv(s) && w in s.workers && s.workers[w].phase == Admitted
    ensures s.workers[w].db.updatedAt == s.updatedAt ==>
      Edge(s.row, FirstWrite(s.workers[w].kind, s.workers[w].db.row))
    ensures s.workers[w].kind != MigrateOutTask
  {
    assert WorkerOk(s, w) && RequestOk(s, w);
  }

  lemma ClaimKeepsInv(s: State, w: nat, stamp: nat)
    requires Inv(s) && Enabled(s, Claim(w, stamp))
    ensures Inv(ClaimRow(s, w, stamp))
  {
    var x, s' := s.workers[w], ClaimRow(s, w, stamp);
    var db := x.db.(row := FirstWrite(x.kind, x.db.row));
    assert WorkerOk(s, w) && RequestOk(s, w);
    ClaimIsEdge(s, w);
    if s.updatedAt == db.updatedAt {
      WalkGrows(s.history, db.row);
    }
    forall v | v in s'.workers
      ensures WorkerOk(s', v) && RequestOk(s', v)
    {
      if v != w {
        OthersAfterWrite(s, db, stamp, v);
      }
    }
  }

  lemma FinishIsEdge(s: State, w: nat, status: Status)
    requires Inv(s) && w in s.workers && s.workers[w].phase == Busy && status != Processing
    ensures s.workers[w].db.updatedAt == s.updatedAt ==> Edge(s.row, s.workers[w].db.row.(status := status))
  {
    assert WorkerOk(s, w);
  }

  lemma FinishKeepsInv(s: State, w: nat, stamp: nat, ok: bool)
    requires Inv(s) && Enabled(s, Finish(w, stamp, ok))
    ensures Inv(FinishRow(s, w, stamp, ok))
  {
    var x, s' := s.workers[w], FinishRow(s, w, stamp, ok);
    var db := x.db.(row := x.db.row.(status := if ok then Done else Failed));
    assert WorkerOk(s, w) && RequestOk(s, w);
    FinishIsEdge(s, w, db.row.status);
    if s.updatedAt == db.updatedAt {
      WalkGrows(s.history, db.row);
    }
    forall v | v in s'.workers
      ensures WorkerOk(s', v) && RequestOk(s', v)
    {
      if v != w {
        OthersAfterWrite(s, db, stamp, v);
      }
    }
  }

  lemma {:induction false} ReachableInv(run: seq<Event>, stamp: nat)
    requires IsRun(run, stamp)
    ensures Inv(After(run, stamp))
  {
    if run == [] {
    } else {
      var s := After(run[..|run| - 1], stamp);
      ReachableInv(run[..|run| - 1], stamp);
      match run[|run| - 1] {
        case Spawn(w, kind) => SpawnKeepsInv(s, w, kind);
        case Read(w) => ReadKeepsInv(s, w);
        case Claim(w, n) => ClaimKeepsInv(s, w, n);
        case Finish(w, n, ok) => FinishKeepsInv(s, w, n, ok);
      }
    }
  }

  // ---------- Main results ----------

  /** However the workers interleave, the committed rows are a walk through the sequential life of a row. */
  lemma HistoryIsAWalk(run: seq<Event>, stamp: nat)
    requires IsRun(run, stamp)
    ensures var s := After(run, stamp); IsWalk(s.history) && s.history[|s.history| - 1] == s.row
  {
    ReachableInv(run, stamp);
  }

  /** The stage of the row never goes back. */
  lemma {:induction false} StagesNeverDecrease(rows: seq<Row>, i: nat, j: nat)
    requires IsWalk(rows) && i <= j < |rows|
    ensures rows[i].stage.Rank() <= rows[j].stage.Rank()
  {
    if i < j {
      StagesNeverDecrease(rows, i, j - 1);
      assert Edge(rows[j - 1], rows[(j - 1) + 1]);
    }
  }

  /** Though the error of the first write is ignored, a worker that lost it leaves no trace in the table. */
  lemma {:induction false} LoserCommitsNothing(run: seq<Event>, stamp: nat, e: Event)
    requires IsRun(run, stamp) && Enabled(After(run, stamp), e)
    requires e.w in After(run, stamp).workers && After(run, stamp).workers[e.w].lost
    ensures var s, s' := After(run, stamp), Apply(After(run, stamp), e);
      s'.row == s.row && s'.updatedAt == s.updatedAt && s'.history == s.history && s'.workers[e.w].lost
  {
    ReachableInv(run, stamp);
    assert WorkerOk(After(run, stamp), e.w);
  }

  /** The event changed the row. */
  ghost predicate Commits(s: State, e: Event)
    requires Enabled(s, e)
  {
    Apply(s, e).history != s.history
  }

  /** A worker that has written once and can still write: the last commit was its own first write. */
  lemma {:induction false} CurrentMeansLast(run: seq<Event>, stamp: nat, w: nat) returns (i: nat)
    requires IsRun(run, stamp) && w in After(run, stamp).workers && After(run, stamp).workers[w].phase == Busy
    requires After(run, stamp).workers[w].db.updatedAt == After(run, stamp).updatedAt
    ensures i < |run| && run[i].Claim? && run[i].w == w && IsRun(run[..i], stamp) && IsRun(run[..i + 1], stamp)
    ensures Enabled(After(run[..i], stamp), run[i]) && Commits(After(run[..i], stamp), run[i])
    ensures After(run[..i + 1], stamp).history == After(run, stamp).history
  {
    var before, e := run[..|run| - 1], run[|run| - 1];
    ReachableInv(before, stamp);
    ReachableInv(run, stamp);
    if e.Claim? && e.w == w {
      i := |run| - 1;
      assert run[..i + 1] == run;
      assert WorkerOk(After(run, stamp), w);
    } else {
      OthersLeaveItCurrent(After(before, stamp), e, w);
      i := CurrentMeansLast(before, stamp, w);
      assert before[..i] == run[..i] && before[..i + 1] == run[..i + 1];
    }
  }

  /** If the worker is still current after somebody else's event, that event committed nothing. */
  lemma OthersLeaveItCurrent(s: State, e: Event, w: nat)
    requires Inv(s) && Enabled(s, e) && !(e.Claim? && e.w == w)
    requires w in Apply(s, e).workers && Apply(s, e).workers[w].phase == Busy
    requires Apply(s, e).workers[w].db.updatedAt == Apply(s, e).updatedAt
    ensures w in s.workers && s.workers[w] == Apply(s, e).workers[w]
    ensures s.workers[w].db.updatedAt == s.updatedAt && !Commits(s, e)
  {
    assert w in s.workers ==> WorkerOk(s, w);
  }

  /**
   * A committed final write directly follows the committed first write of the same worker: nothing that anybody else
   * wrote is in between.
   */
  lemma FinalFollowsFirst(run: seq<Event>, stamp: nat, e: Event) returns (i: nat)
    requires IsRun(run, stamp) && Enabled(After(run, stamp), e) && e.Finish? && Commits(After(run, stamp), e)
    ensures i < |run| && run[i].Claim? && run[i].w == e.w && IsRun(run[..i], stamp) && IsRun(run[..i + 1], stamp)
    ensures Enabled(After(run[..i], stamp), run[i]) && Commits(After(run[..i], stamp), run[i])
    ensures After(run[..i + 1], stamp).history == After(run, stamp).history
    ensures var s := Apply(After(run, stamp), e);
      s.history == After(run[..i + 1], stamp).history + [s.row]
  {
    i := CurrentMeansLast(run, stamp, e.w);
  }

  lemma {:induction false} CreatedBefore(rows: seq<Row>, i: nat) returns (j: nat)
    requires IsWalk(rows) && i < |rows| && rows[i].stage.Rank() >= 3
    ensures j < i && rows[j] == Row(CreateDatabase, Done)
  {
    assert i > 0;
    assert Edge(rows[i - 1], rows[(i - 1) + 1]);
    if rows[i - 1].stage.Rank() >= 3 {
      j := CreatedBefore(rows, i - 1);
    } else {
      j := i - 1;
    }
  }

  /**
   * A row that became ReadyToUse came straight from a database that had been created, or restored, and it
   * had been created before; afterwards it can only become Idle, once.
   */
  lemma ReadyToUseHasACause(run: seq<Event>, stamp: nat, i: nat) returns (j: nat)
    requires IsRun(run, stamp)
    requires i < |After(run, stamp).history| && After(run, stamp).history[i].stage == ReadyToUse
    ensures var rows := After(run, stamp).history;
      && 0 < i && (rows[i - 1] == Row(CreateDatabase, Done) || rows[i - 1] == Row(RestoreDatabase, Done))
      && j < i && rows[j] == Row(CreateDatabase, Done)
      && |rows| <= i + 2 && (i + 1 < |rows| ==> rows[i + 1].stage == Idle)
  {
    ReachableInv(run, stamp);
    var rows := After(run, stamp).history;
    j := CreatedBefore(rows, i);
    assert Edge(rows[i - 1], rows[(i - 1) + 1]);
    if i + 1 < |rows| {
      assert Edge(rows[i], rows[i + 1]);
      LastStages(rows[i], rows[i + 1]);
      if i + 2 < |rows| {
        assert Edge(rows[i + 1], rows[(i + 1) + 1]);
        LastStages(rows[i + 1], rows[(i + 1) + 1]);
        assert false;
      }
    }
  }

  /**
   * The migrate-out task never acts: the request that creates it has already moved the row out of the only
   * state in which the task would write. So (Idle, Done), which the callers of MigrateOut wait for, is
   * never committed.
   */
  lemma {:induction false} MigrateOutNeverCompletes(run: seq<Event>, stamp: nat)
    requires IsRun(run, stamp)
    ensures var s := After(run, stamp);
      && s.row != Row(Idle, Done)
      && (forall w :: w in s.workers && s.workers[w].kind == MigrateOutTask ==>
            s.workers[w].phase == Started || s.workers[w].phase == Refused)
  {
    ReachableInv(run, stamp);
    var s := After(run, stamp);
    forall w | w in s.workers && s.workers[w].kind == MigrateOutTask
      ensures s.workers[w].phase == Started || s.workers[w].phase == Refused
    {
      assert RequestOk(s, w);
    }
  }

  /** Only a failed backup is acted on, and by a backup; a finished one by nothing. */
  lemma BackupIsADeadEnd(a: Row, b: Row)
    requires a.stage == BackupDatabase
    ensures Edge(a, b) ==> b.stage == BackupDatabase
    ensures a.status == Done ==> !Edge(a, b)
  {
  }

  /**
   * A migration never becomes ready either: once the row has the stage BackupDatabase it keeps it, so neither
   * RestoreDatabase nor ReadyToUse ever follows, and a finished backup is the last row there is.
   */
  lemma {:induction false} BackupIsForEver(run: seq<Event>, stamp: nat, i: nat, j: nat)
    requires IsRun(run, stamp) && i <= j < |After(run, stamp).history|
    requires After(run, stamp).history[i].stage == BackupDatabase
    ensures var rows := After(run, stamp).history;
      rows[j].stage == BackupDatabase && (rows[i].status == Done ==> j == i)
  {
    HistoryIsAWalk(run, stamp);
    WalkKeepsBackup(After(run, stamp).history, i, j);
  }

  lemma {:induction false} WalkKeepsBackup(rows: seq<Row>, i: nat, j: nat)
    requires IsWalk(rows) && i <= j < |rows| && rows[i].stage == BackupDatabase
    ensures rows[j].stage == BackupDatabase && (rows[i].status == Done ==> j == i)
  {
    if i == j {
    } else {
      WalkKeepsBackup(rows, i, j - 1);
      assert Edge(rows[j - 1], rows[(j - 1) + 1]);
      BackupIsADeadEnd(rows[j - 1], rows[j]);
    }
  }

  lemma OneMore(run: seq<Event>, stamp: nat, e: Event)
    requires IsRun(run, stamp) && Enabled(After(run, stamp), e)
    ensures IsRun(run + [e], stamp) && After(run + [e], stamp) == Apply(After(run, stamp), e)
  {
    assert (run + [e])[..|run + [e]| - 1] == run;
  }

  /** A new worker fetches a row its kind admits. */
  lemma StartStep(run: seq<Event>, stamp: nat, w: nat, kind: Kind) returns (longer: seq<Event>)
    requires IsRun(run, stamp) && w !in After(run, stamp).workers
    requires kind != MigrateOutTask && Admits(kind, After(run, stamp).row)
    ensures longer == run + [Spawn(w, kind), Read(w)] && IsRun(longer, stamp)
    ensures var s := After(run, stamp);
      After(longer, stamp) == SetWorker(s, w, Worker(kind, Admitted, Db(s.row, s.updatedAt), false))
  {
    OneMore(run, stamp, Spawn(w, kind));
    longer := run + [Spawn(w, kind)];
    OneMore(longer, stamp, Read(w));
    longer := longer + [Read(w)];
    assert After(longer, stamp).workers == After(run, stamp).workers[w := After(longer, stamp).workers[w]];
  }

  lemma ClaimStep(run: seq<Event>, stamp: nat, w: nat, next: nat)
    requires IsRun(run, stamp) && Enabled(After(run, stamp), Claim(w, next))
    requires var s := After(run, stamp); s.workers[w].db == Db(s.row, s.updatedAt) && WritesTwice(s.workers[w].kind)
    ensures IsRun(run + [Claim(w, next)], stamp)
    ensures var s, s' := After(run, stamp), After(run + [Claim(w, next)], stamp);
      && s'.row == FirstWrite(s.workers[w].kind, s.row) && s'.updatedAt == next && s'.used == s.used + {next}
      && s'.workers.Keys == s.workers.Keys
      && s'.workers[w] == s.workers[w].(phase := Busy, db := Db(s'.row, next), lost := false)
  {
    OneMore(run, stamp, Claim(w, next));
  }

  lemma FinishStep(run: seq<Event>, stamp: nat, w: nat, next: nat)
    requires IsRun(run, stamp) && Enabled(After(run, stamp), Finish(w, next, true))
    requires var s := After(run, stamp); s.workers[w].db == Db(s.row, s.updatedAt)
    ensures IsRun(run + [Finish(w, next, true)], stamp)
    ensures var s, s' := After(run, stamp), After(run + [Finish(w, next, true)], stamp);
      s'.row == s.row.(status := Done) && s'.used == s.used + {next} && s'.workers.Keys == s.workers.Keys
  {
    OneMore(run, stamp, Finish(w, next, true));
  }

  /** One step of a kind, undisturbed: fetched, admitted, written twice. */
  lemma UndisturbedStep(run: seq<Event>, stamp: nat, w: nat, kind: Kind, first: nat, second: nat)
    returns (longer: seq<Event>)
    requires IsRun(run, stamp) && w !in After(run, stamp).workers
    requires WritesTwice(kind) && Admits(kind, After(run, stamp).row)
    requires first !in After(run, stamp).used && second !in After(run, stamp).used && first != second
    ensures IsRun(longer, stamp)
    ensures var s, s' := After(run, stamp), After(longer, stamp);
      && s'.row == FirstWrite(kind, s.row).(status := Done)
      && s'.used == s.used + {first, second} && s'.workers.Keys == s.workers.Keys + {w}
  {
    longer := StartStep(run, stamp, w, kind);
    ClaimStep(longer, stamp, w, first);
    longer := longer + [Claim(w, first)];
    FinishStep(longer, stamp, w, second);
    longer := longer + [Finish(w, second, true)];
  }

  /** And there are runs that get there: create the database, then back it up. */
  lemma BackupIsReached(stamp: nat) returns (run: seq<Event>)
    ensures IsRun(run, stamp) && After(run, stamp).row == Row(BackupDatabase, Done)
  {
    run := UndisturbedStep([], stamp, 0, CreateTask, stamp + 1, stamp + 2);
    run := UndisturbedStep(run, stamp, 1, BackupTask, stamp + 3, stamp + 4);
  }

  /** What a worker makes of a first write that fails although the version matched: the row is left as it was. */
  function ClaimLostAnyway(s: State, w: nat): State
    requires w in s.workers
  {
    var x := s.workers[w];
    SetWorker(s, w, x.(phase := Busy, db := x.db.(row := FirstWrite(x.kind, x.db.row)), lost := true))
  }

  /**
   * Why a write must fail only on a mismatch: if the first write of a current worker is lost for another reason,
   * its last write still matches and is committed, and the history stays a walk exactly when the row already was
   * what the first write would have made it.
   */
  lemma {:induction false} SpuriousLossLeavesTheWalkIff(run: seq<Event>, stamp: nat, w: nat, next: nat, ok: bool)
    requires IsRun(run, stamp) && w in After(run, stamp).workers && Enabled(After(run, stamp), Claim(w, next))
    requires WritesTwice(After(run, stamp).workers[w].kind)
    requires After(run, stamp).workers[w].db.updatedAt == After(run, stamp).updatedAt
    ensures var s := After(run, stamp);
      var s', kind := FinishRow(ClaimLostAnyway(s, w), w, next, ok), s.workers[w].kind;
      && s'.row == FirstWrite(kind, s.row).(status := if ok then Done else Failed)
      && s'.history == s.history + [s'.row]
      && (IsWalk(s'.history) <==> s.row == FirstWrite(kind, s.row))
  {
    ReachableInv(run, stamp);
    var s := After(run, stamp);
    assert WorkerOk(s, w);
    var s', kind := FinishRow(ClaimLostAnyway(s, w), w, next, ok), s.workers[w].kind;
    LateRowIsAnEdgeIff(kind, s.row, s'.row);
    var n := |s.history|;
    if Edge(s.row, s'.row) {
      WalkGrows(s.history, s'.row);
    } else {
      assert !Edge(s'.history[n - 1], s'.history[(n - 1) + 1]);
    }
  }

  lemma LateRowIsAnEdgeIff(kind: Kind, a: Row, b: Row)
    requires WritesTwice(kind) && Admits(kind, a) && b.stage == FirstWrite(kind, a).stage && b.status != Processing
    ensures Edge(a, b) <==> a == FirstWrite(kind, a)
  {
    match kind
    case UserTask =>
    case CreateTask =>
    case BackupTask =>
    case RestoreTask =>
  }

  // ---------- The objects ----------

  /** The record db.Db that a worker fetched. */
  class DbRecord {
    var stage: Stage
    var status: Status
    var updatedAt: nat

    constructor (stage: Stage, status: Status, updatedAt: nat)
      ensures this.stage == stage && this.status == status && this.updatedAt == updatedAt
    {
      this.stage, this.status, this.updatedAt := stage, status, updatedAt;
    }

    ghost function Value(): Db
      reads this
    {
      Db(Row(stage, status), updatedAt)
    }
  }

  /** The row in the database. */
  class DbTable {
    var stage: Stage
    var status: Status
    var updatedAt: nat
    ghost var used: set<nat>
    ghost var history: seq<Row>

    ghost function Value(workers: map<nat, Worker>): State
      reads this
    {
      State(Row(stage, status), updatedAt, used, workers, history)
    }

    method SetDbStatus(stage: Stage, status: Status, updatedAt: nat, stamp: nat) returns (matched: bool)
      modifies this
      ensures matched <==> old(this.updatedAt) == updatedAt
      ensures Value(map[]) == CompareAndSet(old(Value(map[])), Db(Row(stage, status), updatedAt), stamp)
    {
      if this.updatedAt != updatedAt {
        return false;
      }
      this.stage, this.status, this.updatedAt := stage, status, stamp;
      used := used + {stamp};
      history := history + [Row(stage, status)];
      return true;
    }

    /** UpdateDbStatus of internal/db/db_api.go. */
    method UpdateDbStatus(db: DbRecord, stamp: nat) returns (matched: bool)
      modifies this, db`updatedAt
      ensures matched <==> old(updatedAt) == old(db.updatedAt)
      ensures Value(map[]) == CompareAndSet(old(Value(map[])), old(db.Value()), stamp)
      ensures db.Value() == Written(old(Value(map[])), old(db.Value()), stamp)
    {
      matched := SetDbStatus(db.stage, db.status, db.updatedAt, stamp);
      if matched {
        db.updatedAt := stamp;
      }
    }
  }

  /** One task step, cut where another worker may get in between. */
  class StepWorker {
    const kind: Kind
    var phase: Phase
    var db: DbRecord
    ghost var lost: bool

    constructor (kind: Kind)
      ensures Value() == Worker(kind, Started, NO_COPY, false) && fresh(db)
    {
      this.kind, phase, lost := kind, Started, false;
      db := new DbRecord(None, Processing, 0);
    }

    ghost function Value(): Worker
      reads this, db
    {
      Worker(kind, phase, db.Value(), lost)
    }

    /** The table as this worker, number 0, sees it. */
    ghost function View(table: DbTable): State
      reads this, db, table
    {
      table.Value(map[0 := Value()])
    }

    /** GetDb and the guard. */
    method Read(table: DbTable)
      modifies this
      ensures fresh(db) && View(table) == ReadRow(old(View(table)), 0)
    {
      db := new DbRecord(table.stage, table.status, table.updatedAt);
      var row := Row(db.stage, db.status);
      phase := if Admits(kind, row) then Admitted else Refused;
    }

    /** The fields set before the external work. */
    method Fill()
      modifies db`stage, db`status
      ensures Row(db.stage, db.status) == FirstWrite(kind, old(Row(db.stage, db.status)))
    {
      match kind {
        case UserTask =>
          db.stage := CreateUser;
          db.status := Processing;
        case CreateTask =>
          db.stage := CreateDatabase;
          db.status := Processing;
        case BackupTask =>
          db.stage := BackupDatabase;
          db.status := Processing;
        case RestoreTask =>
          db.stage := RestoreDatabase;
          db.status := Processing;
        case WaitReadyTask =>
          db.stage := ReadyToUse;
        case MigrateOutTask =>
          db.stage := Idle;
          db.status := Done;
        case MigrateOutRequest =>
          db.stage := Idle;
          db.status := Processing;
      }
    }

    /** The writes before the external work. */
    method Claim(table: DbTable, stamp: nat)
      modifies this, db, table
      ensures db == old(db) && View(table) == ClaimRow(old(View(table)), 0, stamp)
    {
      Fill();
      var matched := table.UpdateDbStatus(db, stamp);
      lost := !matched;
      phase := if WritesTwice(kind) then Busy else Ended;
    }

    /** setFinalDbStatus, when the external work is over. */
    method Finish(table: DbTable, stamp: nat, ok: bool)
      modifies this, db, table
      ensures db == old(db) && View(table) == FinishRow(old(View(table)), 0, stamp, ok)
    {
      if ok {
        db.status := Done;
      } else {
        db.status := Failed;
      }
      var _ := table.UpdateDbStatus(db, stamp);
      phase := Ended;
    }
  }
}
