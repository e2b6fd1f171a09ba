/** The timer queue of pkg/server/cron_server.go: a list kept sorted in place. */
module CronQueue {
  import opened Sequences

  /** What is done at the trigger is told apart by a number; times are instants on one clock. */
  datatype CronElement = CronElement(triggerAt: int, handle: nat)

  ghost predicate Sorted(queue: seq<CronElement>) {
    forall i, j :: 0 <= i < j < |queue| ==> queue[i].triggerAt <= queue[j].triggerAt
  }

  /** after is before with e put in behind everything due no later and ahead of everything due later. */
  ghost predicate InsertedInto(before: seq<CronElement>, e: CronElement, after: seq<CronElement>) {
    exists i :: 0 <= i <= |before|
      && after == before[..i] + [e] + before[i..]
      && (forall k :: 0 <= k < i ==> before[k].triggerAt <= e.triggerAt)
      && (forall k :: i <= k < |before| ==> e.triggerAt < before[k].triggerAt)
  }

  /** The queue split at the clock: fired was due strictly before now, rest was not; both keep their order. */
  ghost predicate SplitAt(before: seq<CronElement>, now: int, fired: seq<CronElement>, rest: seq<CronElement>) {
    && before == fired + rest
    && (forall k :: 0 <= k < |fired| ==> fired[k].triggerAt < now)
    && (forall k :: 0 <= k < |rest| ==> now <= rest[k].triggerAt)
  }

  lemma PutInIsSorted(before: seq<CronElement>, i: nat, e: CronElement)
    requires Sorted(before) && i <= |before|
    requires forall k :: 0 <= k < i ==> before[k].triggerAt <= e.triggerAt
    requires i < |before| ==> e.triggerAt < before[i].triggerAt
    ensures var after := before[..i] + [e] + before[i..];
            Sorted(after) && InsertedInto(before, e, after)
    ensures i == |before| ==> before[..i] + [e] + before[i..] == before + [e]
    ensures i == 0 ==> before[..i] + [e] + before[i..] == [e] + before
  {
    var after := before[..i] + [e] + before[i..];
    assert forall k :: i <= k < |before| ==> before[i].triggerAt <= before[k].triggerAt;
    forall p, q | 0 <= p < q < |after|
      ensures after[p].triggerAt <= after[q].triggerAt
    {
      PutInAt(before, i, e, p);
      PutInAt(before, i, e, q);
    }
  }

  lemma PutInAt(before: seq<CronElement>, i: nat, e: CronElement, p: nat)
    requires i <= |before| && p <= |before|
    ensures (before[..i] + [e] + before[i..])[p] == if p < i then before[p] else if p == i then e else before[p - 1]
  {
  }

  /** The first element found due is the head, and taking it off keeps the rest in order. */
  lemma HeadIsDue(fired: seq<CronElement>, queue: seq<CronElement>, i: nat, now: int)
    requires Sorted(queue) && i < |queue| && queue[i].triggerAt < now
    requires forall k :: 0 <= k < i ==> now <= queue[k].triggerAt
    ensures i == 0 && Sorted(queue[..i] + queue[i + 1..])
    ensures fired + queue == (fired + [queue[i]]) + (queue[..i] + queue[i + 1..])
  {
    assert queue[0].triggerAt <= queue[i].triggerAt;
    assert queue[..0] + queue[1..] == queue[1..];
    assert queue == [queue[0]] + queue[1..];
  }

  class CronServer {
    var elements: seq<CronElement>

    constructor ()
      ensures elements == []
    {
      elements := [];
    }

    method Send(element: CronElement)
      requires Sorted(elements)
      modifies this
      ensures Sorted(elements) && InsertedInto(old(elements), element, elements)
    {
      ghost var before := elements;
      if |elements| == 0 {
        elements := elements + [element];
        PutInIsSorted(before, 0, element);
        return;
      }
      if element.triggerAt < elements[0].triggerAt {
        elements := [element] + elements;
        PutInIsSorted(before, 0, element);
        return;
      }
      for i := 0 to |elements|
        invariant elements == before
        invariant forall k :: 0 <= k < i ==> before[k].triggerAt <= element.triggerAt
      {
        if elements[i].triggerAt > element.triggerAt {
          PutInIsSorted(before, i, element);
          elements := elements[..i] + ([element] + elements[i..]);
          assert elements == before[..i] + [element] + before[i..];
          return;
        }
      }
      elements := elements + [element];
      PutInIsSorted(before, |before|, element);
    }

    /** processArrivedElements; fired is what it starts handlers for, in order. */
    method ProcessArrivedElements(now: int) returns (fired: seq<CronElement>)
      requires Sorted(elements)
      modifies this
      ensures Sorted(elements) && SplitAt(old(elements), now, fired, elements)
    {
      ghost var before := elements;
      fired := [];
      var i := 0;
      while i < |elements|
        invariant 0 <= i <= |elements|
        invariant Sorted(elements) && before == fired + elements
        invariant forall k :: 0 <= k < |fired| ==> fired[k].triggerAt < now
        invariant forall k :: 0 <= k < i ==> now <= elements[k].triggerAt
        decreases |elements| - i
      {
        if elements[i].triggerAt < now {
          HeadIsDue(fired, elements, i, now);
          fired := fired + [elements[i]];
          elements := elements[..i] + elements[i + 1..];
          i := i - 1;
        }
        i := i + 1;
      }
    }

    method NextTriggerAt(now: int, hour: int) returns (at: int)
      requires Sorted(elements)
      ensures elements == [] ==> at == now + hour
      ensures forall e :: e in elements ==> at <= e.triggerAt
      ensures elements != [] ==> exists e :: e in elements && e.triggerAt == at
    {
      if |elements| == 0 {
        return now + hour;
      }
      assert elements[0] in elements;
      return elements[0].triggerAt;
    }
  }

  // ---------- Whole runs ----------

  datatype Event = Sent(e: CronElement) | Tick(now: int)

  /** The queue and the batches fired, one per tick. */
  datatype Trace = Trace(queues: seq<seq<CronElement>>, batches: seq<seq<CronElement>>)

  /** A run of the server: queues[i] is the queue before event i, batches[i] what event i fired. */
  ghost predicate IsRun(events: seq<Event>, t: Trace) {
    && |t.queues| == |events| + 1 && |t.batches| == |events|
    && t.queues[0] == []
    && forall i :: 0 <= i < |events| ==> IsStep(t.queues[i], events[i], t.queues[i + 1], t.batches[i])
  }

  ghost predicate IsStep(before: seq<CronElement>, event: Event, after: seq<CronElement>, batch: seq<CronElement>) {
    match event
    case Sent(e) => InsertedInto(before, e, after) && batch == []
    case Tick(now) => SplitAt(before, now, batch, after)
  }

  function Concat(batches: seq<seq<CronElement>>): seq<CronElement> {
    if batches == [] then [] else Concat(batches[..|batches| - 1]) + batches[|batches| - 1]
  }

  /** Everything handed to Send, in order. */
  function Arrivals(events: seq<Event>): seq<CronElement> {
    if events == [] then []
    else
      var before := Arrivals(events[..|events| - 1]);
      match events[|events| - 1]
      case Sent(e) => before + [e]
      case Tick(_) => before
  }

  function At(time: int): CronElement -> bool {
    (e: CronElement) => e.triggerAt == time
  }

  lemma {:induction false} QueueStaysSorted(events: seq<Event>, t: Trace, n: nat)
    requires IsRun(events, t) && n <= |events|
    ensures Sorted(t.queues[n])
  {
    if n == 0 {
    } else {
      QueueStaysSorted(events, t, n - 1);
      assert IsStep(t.queues[n - 1], events[n - 1], t.queues[(n - 1) + 1], t.batches[n - 1]);
      match events[n - 1]
      case Sent(e) =>
      case Tick(now) =>
        assert forall k :: 0 <= k < |t.queues[n]| ==> t.queues[n][k] == t.queues[n - 1][|t.batches[n - 1]| + k];
    }
  }

  /** An insertion goes behind the timers of the same instant. */
  lemma {:induction false} InsertedBehind(before: seq<CronElement>, e: CronElement, after: seq<CronElement>, time: int)
    requires InsertedInto(before, e, after)
    ensures Filter(At(time), after) == Filter(At(time), before) + if e.triggerAt == time then [e] else []
  {
    var i :| 0 <= i <= |before|
      && after == before[..i] + [e] + before[i..]
      && (forall k :: 0 <= k < i ==> before[k].triggerAt <= e.triggerAt)
      && (forall k :: i <= k < |before| ==> e.triggerAt < before[k].triggerAt);
    assert before == before[..i] + before[i..];
    InsertedBetween(before[..i], e, before[i..], time);
  }

  lemma InsertedBetween(early: seq<CronElement>, e: CronElement, late: seq<CronElement>, time: int)
    requires forall k :: 0 <= k < |late| ==> e.triggerAt < late[k].triggerAt
    ensures Filter(At(time), early + [e] + late) ==
            Filter(At(time), early + late) + if e.triggerAt == time then [e] else []
  {
    FilterAppend(At(time), early, late);
    FilterAppend(At(time), early + [e], late);
    FilterAppend(At(time), early, [e]);
    if e.triggerAt == time {
      FilterNone(At(time), late);
    } else {
      FilterNone(At(time), [e]);
    }
  }

  /** A timer sent goes, among those of its instant, behind the fired and the queued ones. */
  lemma {:induction false} SendKeepsOrder(fired: seq<CronElement>, before: seq<CronElement>, e: CronElement,
                                          after: seq<CronElement>, sent: seq<CronElement>, time: int)
    requires InsertedInto(before, e, after)
    requires Filter(At(time), fired + before) == Filter(At(time), sent)
    ensures Filter(At(time), fired + after) == Filter(At(time), sent + [e])
  {
    InsertedBehind(before, e, after, time);
    FilterAppend(At(time), fired, before);
    FilterAppend(At(time), fired, after);
    FilterAppend(At(time), sent, [e]);
  }

  lemma ConcatOneMore(batches: seq<seq<CronElement>>, n: nat)
    requires 0 < n <= |batches|
    ensures Concat(batches[..n]) == Concat(batches[..n - 1]) + batches[n - 1]
  {
    assert batches[..n][..n - 1] == batches[..n - 1];
  }

  lemma ArrivalsOneMore(events: seq<Event>, n: nat)
    requires 0 < n <= |events|
    ensures Arrivals(events[..n]) ==
            if events[n - 1].Sent? then Arrivals(events[..n - 1]) + [events[n - 1].e] else Arrivals(events[..n - 1])
  {
    assert events[..n][..n - 1] == events[..n - 1];
  }

  /**
   * For every instant: the timers of that instant that have fired, in the order of firing, followed by
   * those still queued, are those sent, in the order of sending. So nothing is lost, nothing fires
   * twice, and ties are served in order of arrival.
   */
  lemma {:induction false} TimersAreServedInOrder(events: seq<Event>, t: Trace, n: nat, time: int)
    requires IsRun(events, t) && n <= |events|
    ensures Filter(At(time), Concat(t.batches[..n]) + t.queues[n]) == Filter(At(time), Arrivals(events[..n]))
  {
    if n == 0 {
    } else {
      var q, q', batch := t.queues[n - 1], t.queues[(n - 1) + 1], t.batches[n - 1];
      var fired := Concat(t.batches[..n - 1]);
      TimersAreServedInOrder(events, t, n - 1, time);
      ConcatOneMore(t.batches, n);
      ArrivalsOneMore(events, n);
      assert IsStep(q, events[n - 1], q', batch);
      StepServesInOrder(fired, q, events[n - 1], q', batch, Arrivals(events[..n - 1]), time);
    }
  }

  lemma StepServesInOrder(fired: seq<CronElement>, before: seq<CronElement>, event: Event, after: seq<CronElement>,
                          batch: seq<CronElement>, sent: seq<CronElement>, time: int)
    requires IsStep(before, event, after, batch)
    requires Filter(At(time), fired + before) == Filter(At(time), sent)
    ensures Filter(At(time), fired + batch + after) == Filter(At(time), if event.Sent? then sent + [event.e] else sent)
  {
    match event
    case Sent(e) =>
      assert fired + batch == fired;
      SendKeepsOrder(fired, before, e, after, sent, time);
    case Tick(_) =>
      assert fired + batch + after == fired + before;
  }

  // ---------- The queue against a bag of timers ----------

  /** The same server without a list: a bag of timers, of which a tick takes exactly those that are due. */
  ghost predicate BagStep(bag: multiset<CronElement>, event: Event, after: multiset<CronElement>,
                          fired: multiset<CronElement>) {
    match event
    case Sent(e) => after == bag + multiset{e} && fired == multiset{}
    case Tick(now) =>
      && bag == fired + after
      && (forall e :: e in fired ==> e.triggerAt < now)
      && (forall e :: e in after ==> now <= e.triggerAt)
  }

  /** Every step of the list is the step of the bag, so each timer fires at the first tick past its time. */
  lemma QueueRefinesBag(events: seq<Event>, t: Trace, n: nat)
    requires IsRun(events, t) && n < |events|
    ensures BagStep(multiset(t.queues[n]), events[n], multiset(t.queues[n + 1]), multiset(t.batches[n]))
    ensures forall e, now :: events[n] == Tick(now) ==>
      multiset(t.batches[n])[e] == if e.triggerAt < now then multiset(t.queues[n])[e] else 0
  {
    var q, q', batch := t.queues[n], t.queues[n + 1], t.batches[n];
    assert IsStep(q, events[n], q', batch);
    match events[n]
    case Sent(e) =>
      var i :| 0 <= i <= |q| && q' == q[..i] + [e] + q[i..];
      assert q == q[..i] + q[i..];
    case Tick(now) =>
      assert forall e :: e in multiset(batch) ==> e in batch;
      assert forall e :: e in multiset(q') ==> e in q';
      assert forall e :: multiset(q)[e] == multiset(batch)[e] + multiset(q')[e];
  }
}
