/**
How a message of an ordered partition is overtaken: when it is resumed onto another queue, and when its priority is changed.
`KafkaOrder.OtherKeepsOrderExactly` says of every operation whether it does such a thing.
*/
module KafkaResume {
  import opened Common
  import opened WorkflowStatus
  import Q = QueueDispatch
  import opened KafkaOrder
  import opened KafkaStamps

  // The queue lets something start.
  predicate Open(queue: Q.Queue) {
    && queue.workerConcurrency != Some(0)
    && (queue.rateLimit.Some? ==> queue.rateLimit.value.limitPerPeriod > 0)
  }

  // A dequeue that claims message 1.
  function ClaimOfSecond(u: Setup): Q.Dequeue {
    Q.Dequeue(u.queue, Some(u.key), u.executor, u.version, false, 0, 7, 7, [u.Id(1)])
  }

  // Message 0 waits, and message 1 is the first row of the partition's queue.
  ghost predicate SecondIsFirst(u: Setup, t: Table) {
    && t.Keys == {u.Id(0), u.Id(1)} && t[u.Id(0)].status.Enqueued? && t[u.Id(1)] == u.Prepared(1, 6)
    && (!Q.InScope(t[u.Id(0)], u.Target()) || !Q.Before(t[u.Id(0)], t[u.Id(1)]))
  }

  lemma SecondIsClaimed(u: Setup, t: Table)
    requires u.Valid() && Open(u.queue) && SecondIsFirst(u, t)
    ensures ClaimOfSecond(u).Legal(t)
  {
    var d, sel := ClaimOfSecond(u), [u.Id(1)];
    assert Q.PendingIn(t, d.Target()) == {};
    assert d.queue.rateLimit.Some? ==> Q.RecentIn(t, d.Target(), d.now - d.queue.rateLimit.value.periodMS) == {};
    var eligible := Q.EligibleIn(t, d.Target(), d.version, d.isLatest);
    assert eligible == {u.Id(1)} || eligible == {u.Id(0), u.Id(1)};
    assert Q.MaxTasks(d.queue, d.localRunning, 0) == Some(1);
    assert Q.Ids(sel) == {u.Id(1)};
    assert d.Selects(t, sel);
    assert sel[..1] == sel;
  }

  lemma OneUpdate(t: Table, op: Op, id: string, row: Row)
    requires !op.Init? && !op.EnqueueMany? && id in t && NextRow(op, id, t[id]) == row
    requires forall i | i in t && i != id :: NextRow(op, i, t[i]) == t[i]
    ensures Next(t, op) == t[id := row]
  {
  }

  lemma UpdateStep(u: Setup, s: System, op: Op, id: string, row: Row, s': System)
    requires op.Cancel? || op.Resume? || op.SetPriority?
    requires id in s.t && NextRow(op, id, s.t[id]) == row && s' == s.(t := s.t[id := row])
    requires forall i | i in s.t && i != id :: NextRow(op, i, s.t[i]) == s.t[i]
    ensures Possible(u, s, Other(op)) && NextSystem(u, s, Other(op)) == s'
  {
    OneUpdate(s.t, op, id, row);
  }

  function Dropped(row: Row): Row {
    row.(status := Cancelled, queue := None, dedupId := None, startedAt := None)
  }

  // A message's workflow that was waiting, cancelled and resumed onto a queue.
  function Returned(row: Row, queue: string): Row {
    row.(status := Enqueued, queue := Some(queue), dedupId := None, startedAt := None, attempts := 0, deadline := None)
  }

  lemma CancelAndResume(u: Setup, s: System, id: string, queue: string, s2: System) returns (evs: seq<Event>)
    requires id in s.t && s.t[id].status.Enqueued? && s2 == s.(t := s.t[id := Returned(s.t[id], queue)])
    ensures History(u, s, evs) && Run(u, s, evs) == s2
  {
    var cancel, resume := Cancel({id}), Resume({id}, queue);
    var s1 := s.(t := s.t[id := Dropped(s.t[id])]);
    UpdateStep(u, s, cancel, id, Dropped(s.t[id]), s1);
    assert s1.t[id := Returned(s.t[id], queue)] == s2.t;
    UpdateStep(u, s1, resume, id, Returned(s.t[id], queue), s2);
    Unfold(u, s1, Other(resume), []);
    Unfold(u, s, Other(cancel), [Other(resume)] + []);
    evs := [Other(cancel)] + ([Other(resume)] + []);
  }

  /** Messages 0 and 1 are enqueued, 0 is cancelled and resumed onto another queue; then 1 is dequeued while 0 waits. */
  lemma ResumedMessageIsOvertaken(u: Setup, s: System, queue: string) returns (evs: seq<Event>)
    requires u.Valid() && Open(u.queue) && !u.poison(0) && !u.poison(1) && Empty(s) && queue != u.queue.name
    ensures History(u, s, evs)
    ensures var e := Run(u, s, evs);
            ClaimOfSecond(u).Legal(e.t) && u.Id(0) in e.t && e.t[u.Id(0)].status.Enqueued?
  {
    var first, s1 := Deliver(0, 2, 5, None, Durable), Enqueued2(u);
    assert u.Id(0) != u.Id(1);
    FirstDelivery(u, s, first);
    var s2 := s1.(t := s1.t[u.Id(0) := Returned(s1.t[u.Id(0)], queue)]);
    var rest := CancelAndResume(u, s1, u.Id(0), queue, s2);
    Unfold(u, s, first, rest);
    evs := [first] + rest;
    SecondIsClaimed(u, s2.t);
  }

  /** Messages 0 and 1 are enqueued, and 0 is given a lower priority; then 1 is dequeued while 0 waits. */
  lemma ReprioritizedMessageIsOvertaken(u: Setup, s: System, priority: int) returns (evs: seq<Event>)
    requires u.Valid() && Open(u.queue) && !u.poison(0) && !u.poison(1) && Empty(s) && priority > 0
    ensures History(u, s, evs)
    ensures var e := Run(u, s, evs);
            ClaimOfSecond(u).Legal(e.t) && u.Id(0) in e.t && e.t[u.Id(0)].status.Enqueued?
  {
    var first, s1, op := Deliver(0, 2, 5, None, Durable), Enqueued2(u), SetPriority(u.Id(0), priority);
    assert u.Id(0) != u.Id(1);
    FirstDelivery(u, s, first);
    var s2 := s1.(t := s1.t[u.Id(0) := s1.t[u.Id(0)].(priority := priority)]);
    UpdateStep(u, s1, op, u.Id(0), s2.t[u.Id(0)], s2);
    Unfold(u, s1, Other(op), []);
    Unfold(u, s, first, [Other(op)] + []);
    evs := [first] + ([Other(op)] + []);
    SecondIsClaimed(u, s2.t);
  }
}
