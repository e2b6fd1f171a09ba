/**
 * The bounded consumer of pkg/server/consumer.go: senders, the receiving loop, the handler goroutines,
 * Close and Shutdown, interleaved step by step. A step is one operation on the flag, the channel, a wait
 * group or the semaphore; the channel is unbuffered, so a hand-over moves an element in one step.
 */
module Consumer {

  type Element = nat

  datatype Loop = Receiving | Got(e: Element) | Counted(e: Element) | Ended | Exited

  datatype Closing = Open | AwaitSenders | ChannelClosed

  datatype Stopping = NotCalled | AwaitExited | AwaitHandlers | Down

  datatype State = State(
    maxConcurrency: nat,
    chanClosed: bool,                 // the flag that Send tests
    closing: Closing,                 // how far the one effective Close has come
    stopping: Stopping,               // how far Shutdown has come
    addingWg: nat,
    wg: nat,
    sem: nat,                         // occupied slots
    checked: multiset<Element>,       // senders past the flag, not yet counted in addingWg
    offering: multiset<Element>,      // senders counted, blocked on the channel
    acknowledging: nat,               // senders whose element was taken, not yet counted out
    loop: Loop,
    handling: multiset<Element>,      // inside Handler.Handle
    returned: nat,                    // handlers back from Handle, slot still held
    released: nat,                    // slot given back, wg not yet decremented
    crashed: bool,                    // somebody sent on the closed channel
    sent: multiset<Element>,          // history: every call of Send
    discarded: multiset<Element>,     // history: refused because the flag was set
    received: multiset<Element>,      // history: taken off the channel
    handled: multiset<Element>)       // history: Handle has returned

  datatype Event =
    | Check(e: Element) | Register(e: Element) | Acknowledge | SendOnClosed(e: Element)
    | Receive(e: Element) | CountIn | Start | SeeClosed
    | Return(e: Element) | Release | Finish
    | Close | FinishClose
    | Shutdown | PassExited | PassHandlers

  function New(maxConcurrency: int): State {
    State(if maxConcurrency < 1 then 1 else maxConcurrency, false, Open, NotCalled, 0, 0, 0,
          multiset{}, multiset{}, 0, Receiving, multiset{}, 0, 0, false,
          multiset{}, multiset{}, multiset{}, multiset{})
  }

  predicate Enabled(s: State, ev: Event) {
    && !s.crashed
    && match ev
       case Check(_) => true
       case Register(e) => e in s.checked
       case Acknowledge => s.acknowledging > 0 && s.addingWg > 0
       case SendOnClosed(e) => e in s.offering && s.closing == ChannelClosed
       case Receive(e) => e in s.offering && s.loop == Receiving && s.closing != ChannelClosed
       case CountIn => s.loop.Got?
       case Start => s.loop.Counted? && s.sem < s.maxConcurrency
       case SeeClosed => s.loop == Receiving && s.closing == ChannelClosed
       case Return(e) => e in s.handling
       case Release => s.returned > 0 && s.sem > 0
       case Finish => s.released > 0 && s.wg > 0
       case Close => true
       case FinishClose => s.closing == AwaitSenders && s.addingWg == 0
       case Shutdown => s.stopping == NotCalled
       case PassExited => s.stopping == AwaitExited && s.loop == Ended
       case PassHandlers => s.stopping == AwaitHandlers && s.wg == 0
  }

  /** CompareAndSwap on the flag: only the call that sets it goes on to close the channel. */
  function CompareAndSwapClosed(s: State): State {
    if s.chanClosed then s else s.(chanClosed := true, closing := AwaitSenders)
  }

  function Step(s: State, ev: Event): State
    requires Enabled(s, ev)
  {
    match ev
    case Check(e) =>
      if s.chanClosed then s.(sent := s.sent + multiset{e}, discarded := s.discarded + multiset{e})
      else s.(sent := s.sent + multiset{e}, checked := s.checked + multiset{e})
    case Register(e) =>
      s.(checked := s.checked - multiset{e}, offering := s.offering + multiset{e}, addingWg := s.addingWg + 1)
    case Acknowledge => s.(acknowledging := s.acknowledging - 1, addingWg := s.addingWg - 1)
    case SendOnClosed(_) => s.(crashed := true)
    case Receive(e) =>
      s.(offering := s.offering - multiset{e}, acknowledging := s.acknowledging + 1, loop := Got(e),
         received := s.received + multiset{e})
    case CountIn => s.(loop := Counted(s.loop.e), wg := s.wg + 1)
    case Start => s.(loop := Receiving, sem := s.sem + 1, handling := s.handling + multiset{s.loop.e})
    case SeeClosed => s.(loop := Ended)
    case Return(e) =>
      s.(handling := s.handling - multiset{e}, returned := s.returned + 1, handled := s.handled + multiset{e})
    case Release => s.(returned := s.returned - 1, sem := s.sem - 1, released := s.released + 1)
    case Finish => s.(released := s.released - 1, wg := s.wg - 1)
    case Close => CompareAndSwapClosed(s)
    case FinishClose => s.(closing := ChannelClosed)
    case Shutdown => CompareAndSwapClosed(s).(stopping := AwaitExited)
    case PassExited => s.(stopping := AwaitHandlers, loop := Exited)
    case PassHandlers => s.(stopping := Down)
  }

  ghost predicate IsRun(s: State, events: seq<Event>)
    decreases |events|
  {
    events == [] || (Enabled(s, events[0]) && IsRun(Step(s, events[0]), events[1..]))
  }

  ghost function After(s: State, events: seq<Event>): State
    requires IsRun(s, events)
    decreases |events|
  {
    if events == [] then s else After(Step(s, events[0]), events[1..])
  }

  // ---------- The invariant ----------

  /** What the receiving loop holds between taking an element and giving it to a handler. */
  function InHand(loop: Loop): multiset<Element> {
    if loop.Got? || loop.Counted? then multiset{loop.e} else multiset{}
  }

  /** Goroutines and slots. */
  ghost predicate HandlerCounts(s: State) {
    && s.maxConcurrency >= 1
    && s.wg == (if s.loop.Counted? then 1 else 0) + |s.handling| + s.returned + s.released
    && s.sem == |s.handling| + s.returned
    && s.sem <= s.maxConcurrency
  }

  /** The wait groups and the semaphore count exactly the senders, goroutines and slots they stand for. */
  ghost predicate Counts(s: State) {
    && s.addingWg == |s.offering| + s.acknowledging
    && HandlerCounts(s)
  }

  /** No element is lost or doubled between Send and the return of Handle. */
  ghost predicate Conserved(s: State) {
    forall e :: ConservedFor(s, e)
  }

  ghost predicate ConservedFor(s: State, e: Element) {
    SentFor(s, e) && ReceivedFor(s, e)
  }

  ghost predicate SentFor(s: State, e: Element) {
    s.sent[e] == s.discarded[e] + s.checked[e] + s.offering[e] + s.received[e]
  }

  ghost predicate ReceivedFor(s: State, e: Element) {
    s.received[e] == InHand(s.loop)[e] + s.handling[e] + s.handled[e]
  }

  ghost predicate Phases(s: State) {
    && (s.chanClosed <==> s.closing != Open)
    && (s.loop == Ended || s.loop == Exited ==> s.closing == ChannelClosed)
    && (s.stopping != NotCalled ==> s.chanClosed)
    && (s.stopping == AwaitHandlers || s.stopping == Down <==> s.loop == Exited)
    && (s.stopping == Down ==> s.wg == 0)
    && (s.crashed ==> s.closing == ChannelClosed && s.offering != multiset{})
  }

  ghost predicate Inv(s: State) {
    Counts(s) && Conserved(s) && Phases(s)
  }

  lemma StepKeepsSenderCount(s: State, ev: Event)
    requires s.addingWg == |s.offering| + s.acknowledging && Enabled(s, ev)
    ensures var s' := Step(s, ev); s'.addingWg == |s'.offering| + s'.acknowledging
  {
    match ev
    case Register(e) => assert |s.offering + multiset{e}| == |s.offering| + 1;
    case Receive(e) => assert |s.offering - multiset{e}| == |s.offering| - 1;
    case _ =>
  }

  lemma StepKeepsHandlerCounts(s: State, ev: Event)
    requires HandlerCounts(s) && Enabled(s, ev)
    ensures HandlerCounts(Step(s, ev))
  {
    match ev
    case Start => assert |s.handling + multiset{s.loop.e}| == |s.handling| + 1;
    case Return(e) => assert |s.handling - multiset{e}| == |s.handling| - 1;
    case CountIn =>
    case Release =>
    case Finish =>
    case _ =>
  }

  lemma StepKeepsPhases(s: State, ev: Event)
    requires Phases(s) && Enabled(s, ev)
    ensures Phases(Step(s, ev))
  {
  }

  lemma StepConservesSent(s: State, ev: Event, e: Element)
    requires SentFor(s, e) && Enabled(s, ev)
    ensures SentFor(Step(s, ev), e)
  {
    match ev
    case Check(_) =>
    case Register(_) =>
    case Receive(_) =>
    case _ =>
  }

  lemma StepConservesReceived(s: State, ev: Event, e: Element)
    requires ReceivedFor(s, e) && Enabled(s, ev)
    ensures ReceivedFor(Step(s, ev), e)
  {
    match ev
    case Receive(_) =>
    case Start =>
    case Return(_) =>
    case _ =>
  }

  lemma ConservedBags(s: State)
    requires Conserved(s)
    ensures s.sent == s.discarded + s.checked + s.offering + s.received
    ensures s.received == InHand(s.loop) + s.handling + s.handled
  {
    assert forall e :: ConservedFor(s, e) && s.received[e] == (InHand(s.loop) + s.handling + s.handled)[e];
    assert forall e :: ConservedFor(s, e) && s.sent[e] == (s.discarded + s.checked + s.offering + s.received)[e];
  }

  lemma StepKeepsInv(s: State, ev: Event)
    requires Inv(s) && Enabled(s, ev)
    ensures Inv(Step(s, ev))
  {
    StepKeepsSenderCount(s, ev);
    StepKeepsHandlerCounts(s, ev);
    StepKeepsPhases(s, ev);
    forall e
      ensures ConservedFor(Step(s, ev), e)
    {
      assert ConservedFor(s, e);
      StepConservesSent(s, ev, e);
      StepConservesReceived(s, ev, e);
    }
  }

  lemma {:induction false} RunKeepsInv(s: State, events: seq<Event>)
    requires Inv(s) && IsRun(s, events)
    ensures Inv(After(s, events))
    decreases |events|
  {
    if events == [] {
    } else {
      StepKeepsInv(s, events[0]);
      RunKeepsInv(Step(s, events[0]), events[1..]);
    }
  }

  // ---------- Bound and drain ----------

  lemma StepThenRun(s: State, ev: Event, rest: seq<Event>)
    requires Enabled(s, ev) && IsRun(Step(s, ev), rest)
    ensures IsRun(s, [ev] + rest) && After(s, [ev] + rest) == After(Step(s, ev), rest)
  {
    assert ([ev] + rest)[1..] == rest;
  }

  /** In every interleaving at most MaxConcurrency elements are being handled and one more waits for a slot. */
  lemma ConcurrencyIsBounded(maxConcurrency: int, events: seq<Event>)
    requires IsRun(New(maxConcurrency), events)
    ensures var s := After(New(maxConcurrency), events);
            && |s.handling| <= (if maxConcurrency < 1 then 1 else maxConcurrency)
            && |InHand(s.loop)| <= 1
            && s.received == InHand(s.loop) + s.handling + s.handled
  {
    RunKeepsInv(New(maxConcurrency), events);
    ConservedBags(After(New(maxConcurrency), events));
    RunKeepsBound(New(maxConcurrency), events);
  }

  lemma {:induction false} RunKeepsBound(s: State, events: seq<Event>)
    requires IsRun(s, events)
    ensures After(s, events).maxConcurrency == s.maxConcurrency
    decreases |events|
  {
    if events == [] {
    } else {
      RunKeepsBound(Step(s, events[0]), events[1..]);
    }
  }

  /** The waiting element is given to a handler as soon as fewer than MaxConcurrency of them hold a slot. */
  lemma FreeSlotIsUsed(maxConcurrency: int, events: seq<Event>, e: Element)
    requires IsRun(New(maxConcurrency), events)
    requires var s := After(New(maxConcurrency), events); s.loop == Counted(e) && !s.crashed
    ensures var s := After(New(maxConcurrency), events);
      && (Enabled(s, Start) <==> |s.handling| + s.returned < if maxConcurrency < 1 then 1 else maxConcurrency)
      && (Enabled(s, Start) ==>
            Step(s, Start).handling == s.handling + multiset{e} && Step(s, Start).loop == Receiving)
  {
    RunKeepsInv(New(maxConcurrency), events);
    RunKeepsBound(New(maxConcurrency), events);
  }

  /** Nothing is closed and the loop waits for the next element. */
  predicate Accepting(s: State) {
    && !s.crashed && !s.chanClosed && s.closing == Open && s.loop == Receiving
    && s.sem == |s.handling| <= s.maxConcurrency
  }

  /** One element more sent, received and handed to a handler that does not return. */
  lemma OneMoreHandled(s: State, e: Element)
    requires Accepting(s) && s.sem < s.maxConcurrency
    ensures Accepting(Given(s, e)) && Given(s, e).maxConcurrency == s.maxConcurrency
    ensures |Given(s, e).handling| == |s.handling| + 1 == Given(s, e).sem
  {
    assert |s.handling + multiset{e}| == |s.handling| + 1;
  }

  lemma {:induction false} RoundRuns(s: State, e: Element, rest: seq<Event>)
    requires Accepting(s) && s.sem < s.maxConcurrency && IsRun(Given(s, e), rest)
    ensures IsRun(s, Round(e, rest)) && After(s, Round(e, rest)) == After(Given(s, e), rest)
  {
    var s1 := Step(s, Check(e));
    var s2 := Step(s1, Register(e));
    var s3 := Step(s2, Receive(e));
    var s4 := Step(s3, CountIn);
    StepThenRun(s4, Start, rest);
    StepThenRun(s3, CountIn, [Start] + rest);
    StepThenRun(s2, Receive(e), [CountIn] + ([Start] + rest));
    StepThenRun(s1, Register(e), [Receive(e)] + ([CountIn] + ([Start] + rest)));
    StepThenRun(s, Check(e), [Register(e)] + ([Receive(e)] + ([CountIn] + ([Start] + rest))));
  }

  function Given(s: State, e: Element): State
    requires Accepting(s) && s.sem < s.maxConcurrency
  {
    Step(Step(Step(Step(Step(s, Check(e)), Register(e)), Receive(e)), CountIn), Start)
  }

  function Round(e: Element, rest: seq<Event>): seq<Event> {
    [Check(e)] + ([Register(e)] + ([Receive(e)] + ([CountIn] + ([Start] + rest))))
  }

  lemma {:induction false} FillsUp(s: State, e: Element) returns (events: seq<Event>)
    requires Accepting(s)
    ensures IsRun(s, events) && |After(s, events).handling| == s.maxConcurrency
    decreases s.maxConcurrency - s.sem
  {
    if s.sem == s.maxConcurrency {
      events := [];
    } else {
      OneMoreHandled(s, e);
      var rest := FillsUp(Given(s, e), e);
      RoundRuns(s, e, rest);
      events := Round(e, rest);
    }
  }

  /** And the bound is reached: for every MaxConcurrency some run has that many elements handled at once. */
  lemma BoundIsReached(maxConcurrency: int, e: Element) returns (events: seq<Event>)
    ensures IsRun(New(maxConcurrency), events)
    ensures |After(New(maxConcurrency), events).handling| == if maxConcurrency < 1 then 1 else maxConcurrency
  {
    events := FillsUp(New(maxConcurrency), e);
  }

  /** Once Shutdown has returned, what was received is what was handled, each element exactly as often. */
  lemma ShutdownDrains(maxConcurrency: int, events: seq<Event>)
    requires IsRun(New(maxConcurrency), events)
    ensures var s := After(New(maxConcurrency), events);
            s.stopping == Down ==>
              && s.received == s.handled && s.handling == multiset{}
              && s.sent == s.discarded + s.handled + s.checked + s.offering
  {
    RunKeepsInv(New(maxConcurrency), events);
    ConservedBags(After(New(maxConcurrency), events));
  }

  // ---------- The window between the test of the flag and addingWg.Add ----------

  /** With the window empty while the flag is set, it stays empty and nothing is left on the channel at its closing. */
  ghost predicate WindowShut(s: State) {
    && s.chanClosed && s.checked == multiset{} && !s.crashed
    && (s.closing == ChannelClosed ==> s.offering == multiset{})
  }

  lemma WindowStaysShut(s: State, ev: Event)
    requires Inv(s) && WindowShut(s) && Enabled(s, ev)
    ensures WindowShut(Step(s, ev))
  {
  }

  lemma {:induction false} RunWindowStaysShut(s: State, events: seq<Event>)
    requires Inv(s) && WindowShut(s) && IsRun(s, events)
    ensures WindowShut(After(s, events))
    decreases |events|
  {
    if events == [] {
    } else {
      StepKeepsInv(s, events[0]);
      WindowStaysShut(s, events[0]);
      RunWindowStaysShut(Step(s, events[0]), events[1..]);
    }
  }

  /** Close with an empty window: whatever was sent is handled or was refused by the time Shutdown returns. */
  lemma {:induction false} CarefulShutdownLosesNothing(s: State, events: seq<Event>)
    requires Inv(s) && WindowShut(s) && IsRun(s, events)
    ensures var s' := After(s, events);
            !s'.crashed && (s'.stopping == Down ==> s'.sent == s'.discarded + s'.handled)
  {
    RunKeepsInv(s, events);
    ConservedBags(After(s, events));
    RunWindowStaysShut(s, events);
  }

  /** Some continuation of s ends with a send on the closed channel. */
  ghost predicate MayCrash(s: State) {
    exists events :: IsRun(s, events) && After(s, events).crashed
  }

  /** How far the senders counted so far are from being counted out. */
  function Distance(s: State): nat {
    20 * |s.offering| + 10 * s.acknowledging
    + (match s.loop case Got(_) => 5 case Counted(_) => 4 case _ => 0)
    + 3 * |s.handling| + 2 * s.returned + s.released
  }

  /** Handlers can always be run so that every sender already counted gets through, Close closes, and e comes late. */
  lemma {:induction false} OpenWindowLeadsToCrash(s: State, e: Element) returns (events: seq<Event>)
    requires Inv(s) && !s.crashed && s.closing == AwaitSenders && e in s.checked
    ensures IsRun(s, events) && After(s, events).crashed
    decreases Distance(s)
  {
    if s.addingWg == 0 {
      events := LateSenderCrashes(s, e);
    } else {
      var ev := NextDrainStep(s);
      StepKeepsInv(s, ev);
      var rest := OpenWindowLeadsToCrash(Step(s, ev), e);
      events := [ev] + rest;
      StepThenRun(s, ev, rest);
    }
  }

  lemma NextDrainStep(s: State) returns (ev: Event)
    requires Counts(s) && !s.crashed && s.closing == AwaitSenders && s.addingWg > 0
    requires s.loop != Ended && s.loop != Exited
    ensures Enabled(s, ev)
    ensures var s' := Step(s, ev);
            Distance(s') < Distance(s) && s'.checked == s.checked && s'.closing == s.closing && !s'.crashed
  {
    if s.acknowledging > 0 {
      return Acknowledge;
    }
    match s.loop
    case Receiving =>
      var e :| e in s.offering;
      assert |s.offering - multiset{e}| == |s.offering| - 1;
      return Receive(e);
    case Got(_) => return CountIn;
    case Counted(_) =>
      if s.returned > 0 {
        return Release;
      }
      if s.handling == multiset{} {
        return Start;
      }
      var e :| e in s.handling;
      assert |s.handling - multiset{e}| == |s.handling| - 1;
      return Return(e);
  }

  /**
   * When the flag is about to be set, a send on the closed channel is still possible exactly when some sender
   * sits between its test of the flag and addingWg.Add.
   */
  lemma CrashIffWindowOpen(s: State)
    requires Inv(s) && !s.crashed && !s.chanClosed
    ensures MayCrash(Step(s, Close)) <==> s.checked != multiset{}
  {
    var s1 := Step(s, Close);
    StepKeepsInv(s, Close);
    if s.checked == multiset{} {
      forall events | IsRun(s1, events)
        ensures !After(s1, events).crashed
      {
        RunWindowStaysShut(s1, events);
      }
    } else {
      var e :| e in s.checked;
      var events := OpenWindowLeadsToCrash(s1, e);
    }
  }

  lemma LateSenderCrashes(s: State, e: Element) returns (events: seq<Event>)
    requires !s.crashed && s.closing == AwaitSenders && s.addingWg == 0 && e in s.checked
    ensures IsRun(s, events) && After(s, events).crashed
  {
    var s1 := Step(s, FinishClose);
    var s2 := Step(s1, Register(e));
    StepThenRun(s2, SendOnClosed(e), []);
    StepThenRun(s1, Register(e), [SendOnClosed(e)]);
    StepThenRun(s, FinishClose, [Register(e)] + [SendOnClosed(e)]);
    events := [FinishClose] + ([Register(e)] + [SendOnClosed(e)]);
  }

  // ---------- Shutdown ends ----------

  /** Steps that are not new calls from outside. */
  predicate Internal(ev: Event) {
    !ev.Check? && !ev.Close? && !ev.Shutdown?
  }

  ghost predicate AllInternal(events: seq<Event>) {
    forall i :: 0 <= i < |events| ==> Internal(events[i])
  }

  function Work(s: State): nat {
    14 * |s.checked| + 12 * |s.offering| + s.acknowledging
    + 5 * |s.handling| + 4 * s.returned + 3 * s.released
    + LoopWork(s.loop) + (if s.closing == AwaitSenders then 1 else 0) + StoppingWork(s.stopping)
    + (if s.crashed then 0 else 1)
  }

  function LoopWork(loop: Loop): nat {
    match loop
    case Receiving => 2
    case Got(_) => 10
    case Counted(_) => 9
    case Ended => 1
    case Exited => 0
  }

  function StoppingWork(stopping: Stopping): nat {
    match stopping
    case NotCalled => 0
    case AwaitExited => 2
    case AwaitHandlers => 1
    case Down => 0
  }

  lemma InternalStepWorks(s: State, ev: Event)
    requires Counts(s) && Enabled(s, ev) && Internal(ev)
    ensures Work(Step(s, ev)) < Work(s)
  {
    match ev
    case Register(e) => RegisterWorks(s, e);
    case Receive(e) => ReceiveWorks(s, e);
    case Return(e) => ReturnWorks(s, e);
    case Start => StartWorks(s);
    case Acknowledge =>
    case SendOnClosed(_) =>
    case CountIn =>
    case SeeClosed =>
    case Release =>
    case Finish =>
    case FinishClose =>
    case PassExited =>
    case PassHandlers =>
  }

  lemma RegisterWorks(s: State, e: Element)
    requires Enabled(s, Register(e))
    ensures Work(Step(s, Register(e))) < Work(s)
  {
    assert |s.checked - multiset{e}| == |s.checked| - 1;
    assert |s.offering + multiset{e}| == |s.offering| + 1;
  }

  lemma ReceiveWorks(s: State, e: Element)
    requires Enabled(s, Receive(e))
    ensures Work(Step(s, Receive(e))) < Work(s)
  {
    assert |s.offering - multiset{e}| == |s.offering| - 1;
  }

  lemma StartWorks(s: State)
    requires Enabled(s, Start)
    ensures Work(Step(s, Start)) < Work(s)
  {
    assert |s.handling + multiset{s.loop.e}| == |s.handling| + 1;
  }

  lemma ReturnWorks(s: State, e: Element)
    requires Enabled(s, Return(e))
    ensures Work(Step(s, Return(e))) < Work(s)
  {
    assert |s.handling - multiset{e}| == |s.handling| - 1;
  }

  /** With no new calls the consumer comes to rest within a number of steps fixed by the state. */
  lemma {:induction false} RunsAreBounded(s: State, events: seq<Event>)
    requires Inv(s) && IsRun(s, events) && AllInternal(events)
    ensures |events| + Work(After(s, events)) <= Work(s)
    decreases |events|
  {
    if events == [] {
    } else {
      StepKeepsInv(s, events[0]);
      InternalStepWorks(s, events[0]);
      assert AllInternal(events[1..]);
      RunsAreBounded(Step(s, events[0]), events[1..]);
    }
  }

  ghost predicate AtRest(s: State) {
    forall ev :: Internal(ev) ==> !Enabled(s, ev)
  }

  /** A called Shutdown never hangs: at rest it has returned, unless a late sender brought the process down. */
  lemma AtRestMeansDown(s: State)
    requires Inv(s) && AtRest(s) && s.stopping != NotCalled && !s.crashed
    ensures s.stopping == Down && s.received == s.handled && s.checked == multiset{} && s.offering == multiset{}
    ensures s.sent == s.discarded + s.handled
  {
    ConservedBags(s);
    NothingHeldAtRest(s);
    ChannelClosedAtRest(s);
    assert !Enabled(s, SeeClosed) && !Enabled(s, PassExited) && !Enabled(s, PassHandlers);
  }

  lemma NothingHeldAtRest(s: State)
    requires Counts(s) && AtRest(s) && !s.crashed
    ensures s.checked == multiset{} && s.handling == multiset{}
    ensures s.acknowledging == s.returned == s.released == s.wg == s.sem == 0 && InHand(s.loop) == multiset{}
  {
    if s.checked != multiset{} {
      var e :| e in s.checked;
      assert Enabled(s, Register(e));
    }
    if s.handling != multiset{} {
      var e :| e in s.handling;
      assert Enabled(s, Return(e));
    }
    assert !Enabled(s, Acknowledge) && !Enabled(s, CountIn) && !Enabled(s, Start);
    assert !Enabled(s, Release) && !Enabled(s, Finish);
  }

  lemma ChannelClosedAtRest(s: State)
    requires Inv(s) && AtRest(s) && s.stopping != NotCalled && !s.crashed
    ensures s.closing == ChannelClosed && s.offering == multiset{}
  {
    NothingHeldAtRest(s);
    assert !Enabled(s, FinishClose);
    if s.offering != multiset{} {
      NoSenderWaitsAtRest(s);
    }
  }

  lemma NoSenderWaitsAtRest(s: State)
    requires Inv(s) && !s.crashed && s.offering != multiset{} && !s.loop.Got? && !s.loop.Counted?
    ensures !AtRest(s)
  {
    var e :| e in s.offering;
    assert Enabled(s, Receive(e)) || Enabled(s, SendOnClosed(e));
  }
}
