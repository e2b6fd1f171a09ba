/**
 * Jobs handed to a connected agent, internal/handler/grpc_server/db-instance.go: callers blocked on an
 * unbuffered channel, serve loops that forward to a stream, and one slot for the job a stream refused.
 */
module Delivery {
  import opened Wrappers

  type Job = nat
  type LoopId = nat

  /** A serve loop is resending what it read from the slot, waiting in the select, or sending the job it took. */
  datatype Phase = Resending(job: Job) | Selecting | Holding(job: Job)

  datatype State = State(
    nonSentDbJob: Option<Job>,
    waiting: seq<Job>,           // callers blocked in Send, in the order they came
    loops: map<LoopId, Phase>,
    sent: seq<Job>,              // history: every call of Send
    delivered: seq<Job>)         // history: what streams accepted

  datatype Event =
    | Send(job: Job)
    | Register(id: LoopId)
    | Resent(id: LoopId, ok: bool)
    | Take(id: LoopId)
    | Forwarded(id: LoopId, ok: bool)
    | ContextDone(id: LoopId)

  const IDLE := State(None, [], map[], [], [])

  predicate Enabled(s: State, ev: Event) {
    match ev
    case Send(_) => true
    case Register(id) => id !in s.loops
    case Resent(id, _) => id in s.loops && s.loops[id].Resending?
    case Take(id) => id in s.loops && s.loops[id] == Selecting && s.waiting != []
    case Forwarded(id, _) => id in s.loops && s.loops[id].Holding?
    case ContextDone(id) => id in s.loops && s.loops[id] == Selecting
  }

  function Step(s: State, ev: Event): State
    requires Enabled(s, ev)
  {
    match ev
    case Send(job) => s.(waiting := s.waiting + [job], sent := s.sent + [job])
    case Register(id) =>
      var phase := if s.nonSentDbJob.Some? then Resending(s.nonSentDbJob.value) else Selecting;
      s.(loops := s.loops[id := phase])
    case Resent(id, ok) =>
      if ok then
        s.(delivered := s.delivered + [s.loops[id].job], nonSentDbJob := None, loops := s.loops[id := Selecting])
      else s.(loops := s.loops - {id})
    case Take(id) => s.(waiting := s.waiting[1..], loops := s.loops[id := Holding(s.waiting[0])])
    case Forwarded(id, ok) =>
      var job := s.loops[id].job;
      if ok then s.(delivered := s.delivered + [job], loops := s.loops[id := Selecting])
      else s.(nonSentDbJob := Some(job), loops := s.loops - {id})
    case ContextDone(id) => s.(loops := s.loops - {id})
  }

  ghost predicate IsRun(s: State, events: seq<Event>)
    decreases |events|
  {
    events == [] || (Enabled(s, events[0]) && IsRun(Step(s, events[0]), events[1..]))
  }

  ghost function After(s: State, events: seq<Event>): State
    requires IsRun(s, events)
    decreases |events|
  {
    if events == [] then s else After(Step(s, events[0]), events[1..])
  }

  /** A stream registers only when no other serve loop of the instance is left. */
  ghost predicate OneLoopAtATime(s: State, events: seq<Event>)
    requires IsRun(s, events)
    decreases |events|
  {
    events == [] ||
    ((events[0].Register? ==> s.loops == map[]) && OneLoopAtATime(Step(s, events[0]), events[1..]))
  }

  /** The job an event puts into the slot. */
  predicate FillsSlot(ev: Event) {
    ev.Forwarded? && !ev.ok
  }

  function Slot(s: State): seq<Job> {
    if s.nonSentDbJob.Some? then [s.nonSentDbJob.value] else []
  }

  // ---------- One serve loop at a time ----------

  /** What the loop called id holds in its hands. */
  function InHand(s: State, id: LoopId): seq<Job> {
    if id in s.loops && s.loops[id].Holding? then [s.loops[id].job] else []
  }

  /** At most the loop called id runs, and delivered ++ slot ++ in hand ++ waiting is what was sent, in order. */
  ghost predicate InOrder(s: State, id: LoopId) {
    && s.loops.Keys <= {id}
    && s.sent == s.delivered + Slot(s) + InHand(s, id) + s.waiting
    && (id in s.loops ==> Slot(s) == if s.loops[id].Resending? then [s.loops[id].job] else [])
  }

  /** The id of the loop after an event: a registration may bring a new one. */
  function LoopAfter(id: LoopId, ev: Event): LoopId {
    if ev.Register? then ev.id else id
  }

  lemma StepKeepsOrder(s: State, ev: Event, id: LoopId)
    requires InOrder(s, id) && Enabled(s, ev) && (ev.Register? ==> s.loops == map[])
    ensures InOrder(Step(s, ev), LoopAfter(id, ev))
    ensures FillsSlot(ev) ==> s.nonSentDbJob == None
  {
    var s' := Step(s, ev);
    match ev
    case Send(job) =>
      assert s'.sent == (s.delivered + Slot(s) + InHand(s, id) + s.waiting) + [job];
    case Take(_) =>
      assert s.waiting == [s.waiting[0]] + s'.waiting;
    case _ =>
  }

  lemma {:induction false} RunKeepsOrder(s: State, events: seq<Event>, id: LoopId) returns (last: LoopId)
    requires InOrder(s, id) && IsRun(s, events) && OneLoopAtATime(s, events)
    ensures InOrder(After(s, events), last)
    decreases |events|
  {
    if events == [] {
      last := id;
    } else {
      StepKeepsOrder(s, events[0], id);
      last := RunKeepsOrder(Step(s, events[0]), events[1..], LoopAfter(id, events[0]));
    }
  }

  /** Sends, refused jobs, lost streams and new registrations: nothing is lost, doubled or reordered. */
  lemma DeliveryConservesAndOrders(events: seq<Event>)
    requires IsRun(IDLE, events) && OneLoopAtATime(IDLE, events)
    ensures exists id :: InOrder(After(IDLE, events), id)
  {
    var id := RunKeepsOrder(IDLE, events, 0);
  }

  /** A refused job never overwrites another one: whenever the slot is filled it was empty. */
  lemma SlotIsNeverOverwritten(events: seq<Event>, ev: Event)
    requires IsRun(IDLE, events) && OneLoopAtATime(IDLE, events)
    requires Enabled(After(IDLE, events), ev) && FillsSlot(ev)
    ensures After(IDLE, events).nonSentDbJob == None
  {
    var id := RunKeepsOrder(IDLE, events, 0);
    StepKeepsOrder(After(IDLE, events), ev, id);
  }

  // ---------- Without that assumption ----------

  /** The loop called id has the job in its hands, newly taken or read from the slot. */
  predicate Holds(s: State, id: LoopId, job: Job) {
    id in s.loops && !s.loops[id].Selecting? && s.loops[id].job == job
  }

  /** The job is delivered, in the slot, in some loop's hands or still waiting. */
  ghost predicate Accounted(s: State, job: Job) {
    job in s.delivered || s.nonSentDbJob == Some(job) || job in s.waiting || exists id :: Holds(s, id, job)
  }

  /** The event takes the job out of the slot though its loop holds another, or gives up one the slot no longer has. */
  predicate Drops(s: State, ev: Event, job: Job)
    requires Enabled(s, ev)
  {
    match ev
    case Forwarded(id, ok) => !ok && s.nonSentDbJob == Some(job) && !Holds(s, id, job)
    case Resent(id, ok) =>
      if ok then s.nonSentDbJob == Some(job) && !Holds(s, id, job)
      else s.nonSentDbJob != Some(job) && Holds(s, id, job)
    case _ => false
  }

  /** With any number of loops, only such an event can lose a job; each of them needs a second loop. */
  lemma OnlyDroppingLosesAJob(s: State, ev: Event, job: Job)
    requires Enabled(s, ev) && Accounted(s, job) && !Drops(s, ev, job)
    ensures Accounted(Step(s, ev), job)
  {
    var s' := Step(s, ev);
    if id :| Holds(s, id, job) {
      assert ev.Send? || ev.id != id ==> Holds(s', id, job);
    } else if job in s.waiting && ev.Take? && job == s.waiting[0] {
      assert Holds(s', ev.id, job);
    }
  }

  // ---------- A second loop ----------

  ghost predicate NoRegistration(events: seq<Event>) {
    forall i :: 0 <= i < |events| ==> !events[i].Register?
  }

  /** The run registers nobody and ends with the job sent but neither delivered, kept nor waiting. */
  ghost predicate Loses(s: State, events: seq<Event>, job: Job) {
    IsRun(s, events) && NoRegistration(events) && job in After(s, events).sent && !Accounted(After(s, events), job)
  }

  /** Some continuation without a further registration ends with a sent job that is nowhere. */
  ghost predicate MayLose(s: State) {
    exists events, job :: Loses(s, events, job)
  }

  lemma StepThenLoses(s: State, ev: Event, rest: seq<Event>, job: Job)
    requires Enabled(s, ev) && !ev.Register? && Loses(Step(s, ev), rest, job)
    ensures Loses(s, [ev] + rest, job)
  {
    StepThenRun(s, ev, rest);
  }

  /** The loop called id selects with the slot empty, the other selects too or still resends; the job is new. */
  ghost predicate Crossing(s: State, id: LoopId, other: LoopId, job: Job) {
    && id != other && s.loops.Keys == {id, other}
    && s.nonSentDbJob == None && s.loops[id] == Selecting && !s.loops[other].Holding?
    && (s.loops[other].Resending? ==> s.loops[other].job != job)
    && job !in s.delivered && job !in s.waiting
  }

  /** Let one loop deliver all that waits, then send the new job and have it refused. */
  lemma {:induction false} CrossingLoses(s: State, id: LoopId, other: LoopId, job: Job) returns (events: seq<Event>)
    requires Crossing(s, id, other, job)
    ensures Loses(s, events, job)
    decreases |s.waiting|
  {
    if s.waiting == [] {
      if s.loops[other].Resending? {
        events := RefusedThenCleared(s, id, other, job);
      } else {
        events := RefusedTwice(s, id, other, job);
      }
    } else {
      var s1 := Step(s, Take(id));
      var s2 := Step(s1, Forwarded(id, true));
      assert s.waiting == [s.waiting[0]] + s2.waiting;
      var rest := CrossingLoses(s2, id, other, job);
      StepThenLoses(s1, Forwarded(id, true), rest, job);
      StepThenLoses(s, Take(id), [Forwarded(id, true)] + rest, job);
      events := [Take(id)] + ([Forwarded(id, true)] + rest);
    }
  }

  /** The job is taken and refused; the slot is all that has it. */
  lemma SentTakenRefused(s: State, id: LoopId, other: LoopId, job: Job)
    requires Crossing(s, id, other, job) && s.waiting == []
    ensures var s1 := Step(s, Send(job));
      && Enabled(s1, Take(id)) && Enabled(Step(s1, Take(id)), Forwarded(id, false))
      && Step(Step(s1, Take(id)), Forwarded(id, false))
         == s.(nonSentDbJob := Some(job), loops := map[other := s.loops[other]], sent := s.sent + [job])
  {
    var s2 := Step(Step(s, Send(job)), Take(id));
    assert s2.loops - {id} == map[other := s.loops[other]];
  }

  /** Then the other loop, done resending, clears the slot. */
  lemma RefusedThenCleared(s: State, id: LoopId, other: LoopId, job: Job) returns (events: seq<Event>)
    requires Crossing(s, id, other, job) && s.waiting == [] && s.loops[other].Resending?
    ensures Loses(s, events, job)
  {
    var s1 := Step(s, Send(job));
    SentTakenRefused(s, id, other, job);
    var s2 := Step(s1, Take(id));
    var s3 := Step(s2, Forwarded(id, false));
    var s4 := Step(s3, Resent(other, true));
    assert s4.loops == map[other := Selecting] && s4.delivered == s.delivered + [s.loops[other].job];
    StepThenRun(s3, Resent(other, true), []);
    assert Loses(s3, [Resent(other, true)] + [], job);
    StepThenLoses(s2, Forwarded(id, false), [Resent(other, true)] + [], job);
    StepThenLoses(s1, Take(id), [Forwarded(id, false)] + ([Resent(other, true)] + []), job);
    events := [Take(id)] + ([Forwarded(id, false)] + ([Resent(other, true)] + []));
    StepThenLoses(s, Send(job), events, job);
    events := [Send(job)] + events;
  }

  /** Or the other loop takes a second job, is refused as well, and overwrites the slot. */
  lemma RefusedTwice(s: State, id: LoopId, other: LoopId, job: Job) returns (events: seq<Event>)
    requires Crossing(s, id, other, job) && s.waiting == [] && s.loops[other] == Selecting
    ensures Loses(s, events, job)
  {
    var next := job + 1;
    var s1 := Step(s, Send(job));
    SentTakenRefused(s, id, other, job);
    var s2 := Step(s1, Take(id));
    var s3 := Step(s2, Forwarded(id, false));
    var s4 := Step(s3, Send(next));
    var s5 := Step(s4, Take(other));
    events := SecondRefusalLoses(s5, other, job, next);
    StepThenLoses(s4, Take(other), events, job);
    StepThenLoses(s3, Send(next), [Take(other)] + events, job);
    events := [Send(next)] + ([Take(other)] + events);
    StepThenLoses(s2, Forwarded(id, false), events, job);
    StepThenLoses(s1, Take(id), [Forwarded(id, false)] + events, job);
    events := [Take(id)] + ([Forwarded(id, false)] + events);
    StepThenLoses(s, Send(job), events, job);
    events := [Send(job)] + events;
  }

  lemma SecondRefusalLoses(s: State, other: LoopId, job: Job, next: Job) returns (events: seq<Event>)
    requires s.loops == map[other := Holding(next)] && s.nonSentDbJob == Some(job) && next != job
    requires job in s.sent && job !in s.delivered && job !in s.waiting
    ensures Loses(s, events, job)
  {
    var last := Forwarded(other, false);
    StepThenRun(s, last, []);
    assert Step(s, last).loops == map[];
    events := [last] + [];
  }

  /** A loop that holds a job forwards it, one that resends succeeds: either way it comes to select. */
  lemma SecondLoopLoses(s: State, id: LoopId, other: LoopId) returns (events: seq<Event>, job: Job)
    requires InOrder(s, id) && s.loops.Keys == {id} && other != id
    ensures Loses(Step(s, Register(other)), events, job)
  {
    job := Fresh(s.sent);
    assert job !in s.delivered + Slot(s) + InHand(s, id) + s.waiting;
    var s1 := Step(s, Register(other));
    var phase := s.loops[id];
    if phase.Selecting? {
      events := CrossingLoses(s1, id, other, job);
    } else {
      var ev := if phase.Holding? then Forwarded(id, true) else Resent(id, true);
      assert phase.job in s.sent by {
        assert phase.job in Slot(s) + InHand(s, id);
      }
      assert Step(s1, ev).delivered == s.delivered + [phase.job];
      var rest := CrossingLoses(Step(s1, ev), id, other, job);
      StepThenLoses(s1, ev, rest, job);
      events := [ev] + rest;
    }
  }

  lemma {:induction false} Fresh(jobs: seq<Job>) returns (job: Job)
    ensures forall k :: k in jobs ==> k < job
  {
    if jobs == [] {
      job := 0;
    } else {
      job := Fresh(jobs[1..]);
      job := if job <= jobs[0] then jobs[0] + 1 else job;
      assert jobs == [jobs[0]] + jobs[1..];
    }
  }

  lemma {:induction false} WithoutRegistrationOneLoop(s: State, events: seq<Event>)
    requires IsRun(s, events) && NoRegistration(events)
    ensures OneLoopAtATime(s, events)
    decreases |events|
  {
    if events == [] {
    } else {
      WithoutRegistrationOneLoop(Step(s, events[0]), events[1..]);
    }
  }

  /**
   * A registration makes the loss of a job possible exactly when a serve loop of the instance is still there:
   * from any state that one loop at a time leads to, whatever that loop is doing.
   */
  lemma SecondLoopMayLoseIff(s: State, id: LoopId, other: LoopId)
    requires InOrder(s, id) && other !in s.loops
    ensures MayLose(Step(s, Register(other))) <==> s.loops != map[]
  {
    var s1 := Step(s, Register(other));
    if s.loops != map[] {
      var running :| running in s.loops;
      assert running in s.loops.Keys;
      var events, job := SecondLoopLoses(s, id, other);
      assert Loses(s1, events, job);
    } else {
      forall events, job | IsRun(s1, events) && NoRegistration(events) && job in After(s1, events).sent
        ensures !Loses(s1, events, job)
      {
        StepKeepsOrder(s, Register(other), id);
        WithoutRegistrationOneLoop(s1, events);
        var last := RunKeepsOrder(s1, events, other);
        InOrderMeansAccounted(After(s1, events), last, job);
      }
    }
  }

  lemma InOrderMeansAccounted(s: State, id: LoopId, job: Job)
    requires InOrder(s, id) && job in s.sent
    ensures Accounted(s, job)
  {
    if job in InHand(s, id) {
      assert Holds(s, id, job);
    }
  }

  /** Two streams registered at once, both refusing: the first refused job is gone. */
  lemma TwoLoopsLoseAJob() returns (events: seq<Event>)
    ensures IsRun(IDLE, events) && 7 in After(IDLE, events).sent && !Accounted(After(IDLE, events), 7)
  {
    var refusals := [Forwarded(0, false)] + ([Forwarded(1, false)] + []);
    BothRefuse();
    BothTake(refusals);
    var takes := [Take(0)] + ([Take(1)] + refusals);
    BothSent(takes);
    var sends := [Send(7)] + ([Send(8)] + takes);
    events := [Register(0)] + ([Register(1)] + sends);
    BothRegister(sends);
  }

  const REGISTERED := State(None, [], map[0 := Selecting, 1 := Selecting], [], [])
  const QUEUED := State(None, [7, 8], map[0 := Selecting, 1 := Selecting], [7, 8], [])
  const TAKEN := State(None, [], map[0 := Holding(7), 1 := Holding(8)], [7, 8], [])

  lemma BothRegister(rest: seq<Event>)
    requires IsRun(REGISTERED, rest)
    ensures var events := [Register(0)] + ([Register(1)] + rest);
            IsRun(IDLE, events) && After(IDLE, events) == After(REGISTERED, rest)
  {
    var s := Step(IDLE, Register(0));
    assert Step(s, Register(1)) == REGISTERED;
    StepThenRun(s, Register(1), rest);
    StepThenRun(IDLE, Register(0), [Register(1)] + rest);
  }

  lemma BothSent(rest: seq<Event>)
    requires IsRun(QUEUED, rest)
    ensures var events := [Send(7)] + ([Send(8)] + rest);
            IsRun(REGISTERED, events) && After(REGISTERED, events) == After(QUEUED, rest)
  {
    var s := Step(REGISTERED, Send(7));
    assert Step(s, Send(8)) == QUEUED;
    StepThenRun(s, Send(8), rest);
    StepThenRun(REGISTERED, Send(7), [Send(8)] + rest);
  }

  lemma BothTake(rest: seq<Event>)
    requires IsRun(TAKEN, rest)
    ensures var events := [Take(0)] + ([Take(1)] + rest);
            IsRun(QUEUED, events) && After(QUEUED, events) == After(TAKEN, rest)
  {
    var s := Step(QUEUED, Take(0));
    assert Step(s, Take(1)) == TAKEN;
    StepThenRun(s, Take(1), rest);
    StepThenRun(QUEUED, Take(0), [Take(1)] + rest);
  }

  lemma BothRefuse()
    ensures var events := [Forwarded(0, false)] + ([Forwarded(1, false)] + []);
            IsRun(TAKEN, events) && After(TAKEN, events) == State(Some(8), [], map[], [7, 8], [])
  {
    var s := Step(TAKEN, Forwarded(0, false));
    assert Step(s, Forwarded(1, false)) == State(Some(8), [], map[], [7, 8], []);
    StepThenRun(s, Forwarded(1, false), []);
    StepThenRun(TAKEN, Forwarded(0, false), [Forwarded(1, false)] + []);
  }

  lemma StepThenRun(s: State, ev: Event, rest: seq<Event>)
    requires Enabled(s, ev) && IsRun(Step(s, ev), rest)
    ensures IsRun(s, [ev] + rest) && After(s, [ev] + rest) == After(Step(s, ev), rest)
  {
    assert ([ev] + rest)[1..] == rest;
  }

  // ---------- The instance and its serve loop ----------

  /** What happens while a loop waits: a caller blocks in Send, the select takes a job, or the stream's context ends. */
  datatype Turn = Blocks(job: Job) | Takes(ok: bool) | Stops

  function Serve(s: State, id: LoopId, resendOk: bool, turns: seq<Turn>): State
    requires id !in s.loops
  {
    var s1 := Step(s, Register(id));
    if s1.loops[id].Resending? then
      var s2 := Step(s1, Resent(id, resendOk));
      if resendOk then Select(s2, id, turns) else s2
    else Select(s1, id, turns)
  }

  /** The select loop; a turn that takes a job while nobody sends one cannot happen and changes nothing. */
  function Select(s: State, id: LoopId, turns: seq<Turn>): State
    requires id in s.loops && s.loops[id] == Selecting
    decreases |turns|
  {
    if turns == [] then s
    else match turns[0]
      case Blocks(job) => Select(Step(s, Send(job)), id, turns[1..])
      case Stops => Step(s, ContextDone(id))
      case Takes(ok) =>
        if s.waiting == [] then Select(s, id, turns[1..])
        else
          var s1 := Step(Step(s, Take(id)), Forwarded(id, ok));
          if ok then Select(s1, id, turns[1..]) else s1
  }

  lemma {:induction false} SelectIsARun(s: State, id: LoopId, turns: seq<Turn>) returns (events: seq<Event>)
    requires id in s.loops && s.loops[id] == Selecting
    ensures IsRun(s, events) && OneLoopAtATime(s, events) && After(s, events) == Select(s, id, turns)
    decreases |turns|
  {
    if turns == [] {
      return [];
    }
    match turns[0]
    case Blocks(job) =>
      var rest := SelectIsARun(Step(s, Send(job)), id, turns[1..]);
      events := [Send(job)] + rest;
      StepThenRun(s, Send(job), rest);
      assert events[1..] == rest;
    case Stops =>
      events := [ContextDone(id)];
      assert events[1..] == [];
    case Takes(ok) =>
      if s.waiting == [] {
        events := SelectIsARun(s, id, turns[1..]);
      } else {
        var s1 := Step(s, Take(id));
        var s2 := Step(s1, Forwarded(id, ok));
        var rest := [];
        if ok {
          rest := SelectIsARun(s2, id, turns[1..]);
        }
        StepThenRun(s1, Forwarded(id, ok), rest);
        StepThenRun(s, Take(id), [Forwarded(id, ok)] + rest);
        assert ([Forwarded(id, ok)] + rest)[1..] == rest;
        events := [Take(id)] + ([Forwarded(id, ok)] + rest);
        assert events[1..] == [Forwarded(id, ok)] + rest;
      }
  }

  /** A serve loop started when no other runs performs a run of the machine, so everything above holds of it. */
  lemma ServeIsARun(s: State, id: LoopId, resendOk: bool, turns: seq<Turn>) returns (events: seq<Event>)
    requires s.loops == map[]
    ensures IsRun(s, events) && OneLoopAtATime(s, events) && After(s, events) == Serve(s, id, resendOk, turns)
  {
    var s1 := Step(s, Register(id));
    var rest := [];
    if s1.loops[id].Resending? {
      var s2 := Step(s1, Resent(id, resendOk));
      if resendOk {
        rest := SelectIsARun(s2, id, turns);
      }
      StepThenRun(s1, Resent(id, resendOk), rest);
      assert ([Resent(id, resendOk)] + rest)[1..] == rest;
      rest := [Resent(id, resendOk)] + rest;
    } else {
      rest := SelectIsARun(s1, id, turns);
    }
    StepThenRun(s, Register(id), rest);
    events := [Register(id)] + rest;
    assert events[1..] == rest;
  }

  // ---------- What serving comes to, by the turns alone ----------

  /** The jobs of the callers that block in these turns. */
  function Blocked(turns: seq<Turn>): seq<Job> {
    if turns == [] then []
    else (if turns[0].Blocks? then [turns[0].job] else []) + Blocked(turns[1..])
  }

  /** The turn that ends the loop when n callers wait: the first stop, or the first refusal of a job that is there. */
  function Ending(n: nat, turns: seq<Turn>): (k: nat)
    ensures k <= |turns|
    decreases |turns|
  {
    if turns == [] || turns[0].Stops? || (turns[0] == Takes(false) && n > 0) then 0
    else 1 + Ending(Waiting(n, turns[0]), turns[1..])
  }

  /** How many jobs have been accepted by then. */
  function Moves(n: nat, turns: seq<Turn>): nat
    decreases |turns|
  {
    if turns == [] || turns[0].Stops? || (turns[0] == Takes(false) && n > 0) then 0
    else (if turns[0] == Takes(true) && n > 0 then 1 else 0) + Moves(Waiting(n, turns[0]), turns[1..])
  }

  /** How many callers wait after a turn that found n. */
  function Waiting(n: nat, turn: Turn): nat {
    if turn.Blocks? then n + 1 else if turn.Takes? && n > 0 then n - 1 else n
  }

  /** The queue when the loop ends: those that waited and those that came, in order. */
  function Line(waiting: seq<Job>, turns: seq<Turn>): seq<Job> {
    waiting + Blocked(turns[..Ending(|waiting|, turns)])
  }

  /** The loop ended by a refusal. */
  predicate Refused(n: nat, turns: seq<Turn>) {
    Ending(n, turns) < |turns| && turns[Ending(n, turns)].Takes?
  }

  /** The first m of the line have been delivered; a refused one is in the slot; the others still wait. */
  ghost predicate Divided(line: seq<Job>, m: nat, refused: bool,
                          delivered: seq<Job>, slot: Option<Job>, left: seq<Job>) {
    && m <= |line| && delivered == line[..m]
    && if refused then m < |line| && slot == Some(line[m]) && left == line[m + 1..]
       else slot == None && left == line[m..]
  }

  ghost predicate Served(waiting: seq<Job>, turns: seq<Turn>, delivered: seq<Job>, slot: Option<Job>, left: seq<Job>) {
    Divided(Line(waiting, turns), Moves(|waiting|, turns), Refused(|waiting|, turns), delivered, slot, left)
  }

  lemma BlockedFirst(turns: seq<Turn>, k: nat)
    requires 0 < k <= |turns|
    ensures Blocked(turns[..k]) == (if turns[0].Blocks? then [turns[0].job] else []) + Blocked(turns[1..][..k - 1])
  {
    assert turns[..k][1..] == turns[1..][..k - 1];
  }

  lemma LineFirst(waiting: seq<Job>, turns: seq<Turn>, next: seq<Job>, first: seq<Job>)
    requires turns != [] && !turns[0].Stops? && (waiting == [] || turns[0] != Takes(false))
    requires |next| == Waiting(|waiting|, turns[0])
    requires first + next == waiting + if turns[0].Blocks? then [turns[0].job] else []
    ensures Line(waiting, turns) == first + Line(next, turns[1..])
  {
    var k := Ending(|waiting|, turns);
    var came := if turns[0].Blocks? then [turns[0].job] else [];
    var later := Blocked(turns[1..][..k - 1]);
    BlockedFirst(turns, k);
    assert waiting + (came + later) == (waiting + came) + later;
    assert (first + next) + later == first + (next + later);
  }

  lemma DividedFirst(first: seq<Job>, line: seq<Job>, m: nat, refused: bool,
                     delivered: seq<Job>, slot: Option<Job>, left: seq<Job>)
    requires Divided(line, m, refused, delivered, slot, left)
    ensures Divided(first + line, |first| + m, refused, first + delivered, slot, left)
  {
    assert (first + line)[..|first| + m] == first + line[..m];
  }

  /** One turn more in front: a caller that comes, a take of the first, or nothing. */
  lemma ServedFirst(waiting: seq<Job>, turns: seq<Turn>, next: seq<Job>, first: seq<Job>,
                    delivered: seq<Job>, slot: Option<Job>, left: seq<Job>)
    requires turns != [] && !turns[0].Stops? && (waiting == [] || turns[0] != Takes(false))
    requires first == if turns[0].Takes? && waiting != [] then [waiting[0]] else []
    requires first + next == waiting + if turns[0].Blocks? then [turns[0].job] else []
    requires Served(next, turns[1..], delivered, slot, left)
    ensures Served(waiting, turns, first + delivered, slot, left)
  {
    assert |first + next| == |first| + |next|;
    LineFirst(waiting, turns, next, first);
    CountsFirst(|waiting|, turns, |next|, |first|);
    DividedFirst(first, Line(next, turns[1..]), Moves(|next|, turns[1..]), Refused(|next|, turns[1..]),
                 delivered, slot, left);
  }

  lemma CountsFirst(n: nat, turns: seq<Turn>, next: nat, first: nat)
    requires turns != [] && !turns[0].Stops? && (n == 0 || turns[0] != Takes(false)) && next == Waiting(n, turns[0])
    requires first == if turns[0].Takes? && n > 0 then 1 else 0
    ensures Moves(n, turns) == first + Moves(next, turns[1..])
    ensures Refused(n, turns) <==> Refused(next, turns[1..])
  {
  }

  /** The state in which the next turn is met. */
  function Turned(s: State, id: LoopId, turn: Turn): State
    requires id in s.loops && s.loops[id] == Selecting
  {
    if turn.Blocks? then Step(s, Send(turn.job))
    else if turn.Takes? && s.waiting != [] then Step(Step(s, Take(id)), Forwarded(id, true))
    else s
  }

  /** What an accepting turn delivers. */
  function First(s: State, turn: Turn): seq<Job> {
    if turn.Takes? && s.waiting != [] then [s.waiting[0]] else []
  }

  lemma SelectTurn(s: State, id: LoopId, turns: seq<Turn>)
    requires id in s.loops && s.loops[id] == Selecting && s.nonSentDbJob == None
    requires turns != [] && !turns[0].Stops? && (s.waiting == [] || turns[0] != Takes(false))
    ensures var s1 := Turned(s, id, turns[0]);
      && id in s1.loops && s1.loops[id] == Selecting && s1.nonSentDbJob == None
      && s1.delivered == s.delivered + First(s, turns[0])
      && Select(s, id, turns) == Select(s1, id, turns[1..])
  {
  }

  lemma TurnedWaiting(s: State, id: LoopId, turn: Turn)
    requires id in s.loops && s.loops[id] == Selecting
    ensures First(s, turn) + Turned(s, id, turn).waiting == s.waiting + if turn.Blocks? then [turn.job] else []
  {
  }

  /** From s to s' the loop has delivered what was accepted. */
  ghost predicate Serves(s: State, s': State, id: LoopId, turns: seq<Turn>, accepted: seq<Job>) {
    && s'.delivered == s.delivered + accepted
    && Served(s.waiting, turns, accepted, s'.nonSentDbJob, s'.waiting)
    && (id in s'.loops <==> Ending(|s.waiting|, turns) == |turns|)
  }

  lemma SelectEnds(s: State, id: LoopId, turns: seq<Turn>)
    requires id in s.loops && s.loops[id] == Selecting && s.nonSentDbJob == None
    requires turns == [] || turns[0].Stops? || (turns[0] == Takes(false) && s.waiting != [])
    ensures Serves(s, Select(s, id, turns), id, turns, [])
  {
    assert turns[..0] == [];
    assert Line(s.waiting, turns) == s.waiting;
  }

  lemma ServesFirst(s: State, s1: State, s': State, id: LoopId, turns: seq<Turn>, first: seq<Job>, accepted: seq<Job>)
    requires turns != [] && !turns[0].Stops? && (s.waiting == [] || turns[0] != Takes(false))
    requires s1.delivered == s.delivered + first
    requires first == if turns[0].Takes? && s.waiting != [] then [s.waiting[0]] else []
    requires first + s1.waiting == s.waiting + if turns[0].Blocks? then [turns[0].job] else []
    requires Serves(s1, s', id, turns[1..], accepted)
    ensures Serves(s, s', id, turns, first + accepted)
  {
    assert |first + s1.waiting| == |first| + |s1.waiting|;
    ServedFirst(s.waiting, turns, s1.waiting, first, accepted, s'.nonSentDbJob, s'.waiting);
    assert s.delivered + (first + accepted) == (s.delivered + first) + accepted;
  }

  lemma {:induction false} SelectServes(s: State, id: LoopId, turns: seq<Turn>) returns (accepted: seq<Job>)
    requires id in s.loops && s.loops[id] == Selecting && s.nonSentDbJob == None
    ensures Serves(s, Select(s, id, turns), id, turns, accepted)
    decreases |turns|
  {
    if turns == [] || turns[0].Stops? || (turns[0] == Takes(false) && s.waiting != []) {
      accepted := [];
      SelectEnds(s, id, turns);
    } else {
      var s1, first := Turned(s, id, turns[0]), First(s, turns[0]);
      SelectTurn(s, id, turns);
      TurnedWaiting(s, id, turns[0]);
      accepted := SelectServes(s1, id, turns[1..]);
      ServesFirst(s, s1, Select(s, id, turns), id, turns, first, accepted);
      accepted := first + accepted;
    }
  }

  /** Nothing ends the loop, and after the first n turns there are takes enough for all who wait by then. */
  ghost predicate EnoughTakes(waiting: seq<Job>, turns: seq<Turn>, n: nat) {
    && n <= |turns| && |waiting| + n <= |turns| - n
    && (forall i :: 0 <= i < |turns| ==> turns[i] != Stops && turns[i] != Takes(false))
    && (forall i :: n <= i < |turns| ==> turns[i] == Takes(true))
  }

  /** The first j takes are accepted and the next is refused. */
  ghost predicate RefusesAt(waiting: seq<Job>, turns: seq<Turn>, j: nat) {
    j < |waiting| && j < |turns| && turns[j] == Takes(false) && forall i :: 0 <= i < j ==> turns[i] == Takes(true)
  }

  lemma {:induction false} EnoughMoves(waiting: seq<Job>, turns: seq<Turn>, n: nat)
    requires EnoughTakes(waiting, turns, n)
    ensures Ending(|waiting|, turns) == |turns| && Moves(|waiting|, turns) == |waiting| + |Blocked(turns)|
    decreases |turns|
  {
    if turns == [] {
    } else {
      assert turns[0] != Stops && turns[0] != Takes(false);
      var next := if turns[0].Blocks? then waiting + [turns[0].job] else if waiting == [] then [] else waiting[1..];
      EnoughMoves(next, turns[1..], if n == 0 then 0 else n - 1);
    }
  }

  /** With enough takes everybody who waited and everybody who came is delivered, in order. */
  lemma EnoughTakesDeliverAll(waiting: seq<Job>, turns: seq<Turn>, n: nat,
                              delivered: seq<Job>, slot: Option<Job>, left: seq<Job>)
    requires EnoughTakes(waiting, turns, n) && Served(waiting, turns, delivered, slot, left)
    ensures delivered == waiting + Blocked(turns) && slot == None && left == []
  {
    EnoughMoves(waiting, turns, n);
    assert turns[..|turns|] == turns;
  }

  lemma {:induction false} RefusalEnds(waiting: seq<Job>, turns: seq<Turn>, j: nat)
    requires RefusesAt(waiting, turns, j)
    ensures Ending(|waiting|, turns) == j == Moves(|waiting|, turns) && Blocked(turns[..j]) == []
    decreases j
  {
    if j == 0 {
    } else {
      assert turns[0] == Takes(true);
      RefusalEnds(waiting[1..], turns[1..], j - 1);
      BlockedFirst(turns, j);
    }
  }

  /** A refused take leaves exactly its job in the slot, those before it delivered and those behind it waiting. */
  lemma RefusedTakeFillsTheSlot(waiting: seq<Job>, turns: seq<Turn>, j: nat,
                                delivered: seq<Job>, slot: Option<Job>, left: seq<Job>)
    requires RefusesAt(waiting, turns, j) && Served(waiting, turns, delivered, slot, left)
    ensures delivered == waiting[..j] && slot == Some(waiting[j]) && left == waiting[j + 1..]
  {
    RefusalEnds(waiting, turns, j);
    assert Line(waiting, turns) == waiting;
  }

  /**
   * What a loop that was not refused at once has done by the end: start is delivered before, the job resent included.
   */
  ghost predicate Forwarding(start: seq<Job>, waiting: seq<Job>, turns: seq<Turn>,
                             delivered: seq<Job>, slot: Option<Job>, left: seq<Job>) {
    && start <= delivered && Served(waiting, turns, delivered[|start|..], slot, left)
    && (forall n: nat {:trigger EnoughTakes(waiting, turns, n)} :: EnoughTakes(waiting, turns, n) ==>
          delivered == start + waiting + Blocked(turns) && slot == None && left == [])
    && (forall j: nat {:trigger RefusesAt(waiting, turns, j)} :: RefusesAt(waiting, turns, j) ==>
          delivered == start + waiting[..j] && slot == Some(waiting[j]) && left == waiting[j + 1..])
  }

  lemma ServedForwards(start: seq<Job>, waiting: seq<Job>, turns: seq<Turn>,
                       accepted: seq<Job>, slot: Option<Job>, left: seq<Job>)
    requires Served(waiting, turns, accepted, slot, left)
    ensures Forwarding(start, waiting, turns, start + accepted, slot, left)
  {
    var delivered := start + accepted;
    assert delivered[|start|..] == accepted;
    forall n: nat {:trigger EnoughTakes(waiting, turns, n)} | EnoughTakes(waiting, turns, n)
      ensures delivered == start + waiting + Blocked(turns) && slot == None && left == []
    {
      EnoughTakesDeliverAll(waiting, turns, n, accepted, slot, left);
    }
    forall j: nat {:trigger RefusesAt(waiting, turns, j)} | RefusesAt(waiting, turns, j)
      ensures delivered == start + waiting[..j] && slot == Some(waiting[j]) && left == waiting[j + 1..]
    {
      RefusedTakeFillsTheSlot(waiting, turns, j, accepted, slot, left);
    }
  }

  /** The loop as it comes to the select. */
  lemma ServeIsSelect(s: State, id: LoopId, resendOk: bool, turns: seq<Turn>) returns (s1: State)
    requires s.loops == map[] && (s.nonSentDbJob == None || resendOk)
    ensures id in s1.loops && s1.loops[id] == Selecting && s1.nonSentDbJob == None
    ensures s1.delivered == s.delivered + Slot(s) && s1.waiting == s.waiting
    ensures Serve(s, id, resendOk, turns) == Select(s1, id, turns)
  {
    s1 := Step(s, Register(id));
    if s.nonSentDbJob.Some? {
      s1 := Step(s1, Resent(id, resendOk));
    }
  }

  /** A serve loop on the fields: refused at once, or the slot and then the first of the line delivered. */
  lemma {:induction false} ServeForwards(s: State, id: LoopId, resendOk: bool, turns: seq<Turn>)
    requires s.loops == map[]
    ensures var s' := Serve(s, id, resendOk, turns);
      if s.nonSentDbJob.Some? && !resendOk then s' == s
      else
        && Forwarding(s.delivered + Slot(s), s.waiting, turns, s'.delivered, s'.nonSentDbJob, s'.waiting)
        && (id in s'.loops <==> Ending(|s.waiting|, turns) == |turns|)
  {
    if s.nonSentDbJob == None || resendOk {
      var s1 := ServeIsSelect(s, id, resendOk, turns);
      var s' := Serve(s, id, resendOk, turns);
      var accepted := SelectServes(s1, id, turns);
      ServedForwards(s.delivered + Slot(s), s.waiting, turns, accepted, s'.nonSentDbJob, s'.waiting);
    }
  }

  class DbInstance {
    var nonSentDbJob: Option<Job>
    var dbJobChan: seq<Job>
    ghost var sent: seq<Job>
    var delivered: seq<Job>

    ghost function Model(loops: map<LoopId, Phase>): State
      reads this
    {
      State(nonSentDbJob, dbJobChan, loops, sent, delivered)
    }

    constructor ()
      ensures Model(map[]) == IDLE
    {
      nonSentDbJob := None;
      dbJobChan := [];
      sent := [];
      delivered := [];
    }

    method SendJob(job: Job)
      modifies this
      ensures forall loops :: Model(loops) == Step(old(Model(loops)), Send(job))
    {
      dbJobChan := dbJobChan + [job];
      sent := sent + [job];
    }

    /** One serve loop, called id, whose stream accepts the resent job or not and then meets the given turns. */
    method ServeDbJob(id: LoopId, resendOk: bool, turns: seq<Turn>) returns (serving: bool)
      modifies this
      ensures Model(if serving then map[id := Selecting] else map[])
              == Serve(old(Model(map[])), id, resendOk, turns)
      // A refused resend changes nothing.
      ensures old(nonSentDbJob).Some? && !resendOk ==>
        !serving && nonSentDbJob == old(nonSentDbJob) && dbJobChan == old(dbJobChan) && delivered == old(delivered)
      // Otherwise the slot is delivered first, then the line as far as the takes go.
      ensures old(nonSentDbJob) == None || resendOk ==>
        var start := old(delivered) + if old(nonSentDbJob).Some? then [old(nonSentDbJob).value] else [];
        && Forwarding(start, old(dbJobChan), turns, delivered, nonSentDbJob, dbJobChan)
        && (serving <==> Ending(|old(dbJobChan)|, turns) == |turns|)
    {
      ServeForwards(Model(map[]), id, resendOk, turns);
      if nonSentDbJob.Some? {
        if !resendOk {
          return false;
        }
        delivered := delivered + [nonSentDbJob.value];
        nonSentDbJob := None;
      }
      assert forall job :: map[][id := Resending(job)][id := Selecting] == map[id := Selecting];
      serving := ServeChan(id, turns);
    }

    /** The select loop. */
    method ServeChan(id: LoopId, turns: seq<Turn>) returns (serving: bool)
      requires nonSentDbJob == None
      modifies this
      ensures Model(if serving then map[id := Selecting] else map[])
              == Select(old(Model(map[id := Selecting])), id, turns)
    {
      ghost var loops := map[id := Selecting];
      assert turns[0..] == turns;
      for i := 0 to |turns|
        invariant nonSentDbJob == None
        invariant Select(Model(loops), id, turns[i..]) == Select(old(Model(loops)), id, turns)
      {
        assert turns[i..][1..] == turns[i + 1..];
        match turns[i]
        case Blocks(job) => SendJob(job);
        case Stops => return false;
        case Takes(ok) =>
          if dbJobChan != [] {
            var job := dbJobChan[0];
            dbJobChan := dbJobChan[1..];
            assert loops[id := Holding(job)][id := Selecting] == loops;
            if !ok {
              nonSentDbJob := Some(job);
              return false;
            }
            delivered := delivered + [job];
          }
      }
      return true;
    }
  }
}
