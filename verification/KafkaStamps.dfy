/**
When the creation stamps of a partition's messages increase with the offset.

Active rows are always in order. A process that restarts seeds its cursor from active rows only, so its first batch can
be stamped at or below rows that have settled.
*/
module KafkaStamps {
  import opened Common
  import opened WorkflowStatus
  import opened KafkaOrder

  function StampOf(u: Setup, s: System, o: nat): int
    requires u.Id(o) in s.t
  {
    s.t[u.Id(o)].createdAt
  }

  // No message is resumed out of order.
  ghost predicate ResumesFit(u: Setup, s: System, evs: seq<Event>)
    requires History(u, s, evs)
    decreases |evs|
  {
    |evs| == 0 || ((evs[0].Other? ==> StampsFit(u, s, evs[0].op)) && ResumesFit(u, NextSystem(u, s, evs[0]), evs[1..]))
  }

  lemma {:induction false} StampsStayOrdered(u: Setup, s: System, evs: seq<Event>)
    requires u.Valid() && IdsMatch(u, s) && StampsOrdered(u, s) && History(u, s, evs) && ResumesFit(u, s, evs)
    ensures IdsMatch(u, Run(u, s, evs)) && StampsOrdered(u, Run(u, s, evs))
    decreases |evs|
  {
    if |evs| > 0 {
      EventKeepsStamps(u, s, evs[0]);
      StampsStayOrdered(u, NextSystem(u, s, evs[0]), evs[1..]);
    }
  }

  /** In every reachable state the messages whose workflows are ENQUEUED or PENDING are stamped in offset order. */
  lemma ActiveStampsIncrease(u: Setup, s: System, evs: seq<Event>, o: nat, p: nat)
    requires u.Valid() && Empty(s) && History(u, s, evs) && ResumesFit(u, s, evs) && o < p && !u.poison(o) && !u.poison(p)
    ensures var e := Run(u, s, evs);
            u.Id(o) in e.t && u.Id(p) in e.t && Active(e.t[u.Id(o)]) && Active(e.t[u.Id(p)]) ==> StampOf(u, e, o) < StampOf(u, e, p)
  {
    StampsStayOrdered(u, s, evs);
  }

  // ---------- One delivery ----------

  // The messages that have settled are stamped below x.
  ghost predicate SettledBelow(u: Setup, s: System, x: int) {
    forall p: nat | Enqueuable(u, s, p) && u.Id(p) in s.t :: !Active(s.t[u.Id(p)]) ==> StampOf(u, s, p) < x
  }

  // Every message that is new in s' is stamped above all earlier ones.
  ghost predicate NewAboveAll(u: Setup, s: System, s': System)
    requires IdsMatch(u, s')
  {
    forall p: nat, o: nat | p < o && s.frontier <= o && Enqueuable(u, s', p) && Enqueuable(u, s', o) ::
      StampOf(u, s', p) < StampOf(u, s', o)
  }

  // The stamp of the first new message of a chunk that begins at `first`: redelivered messages use up stamps too.
  function FirstNewStamp(u: Setup, s: System, first: nat, base: int): int
    requires first <= s.frontier
  {
    base + Rank(u, first, s.frontier)
  }

  lemma FirstNew(u: Setup, a: nat, f: nat, b: nat) returns (o: nat)
    requires a <= f <= b && Rank(u, a, f) < Rank(u, a, b)
    ensures f <= o < b && !u.poison(o) && Rank(u, a, o) == Rank(u, a, f)
    decreases b - f
  {
    if !u.poison(f) {
      o := f;
    } else {
      o := FirstNew(u, a, f + 1, b);
    }
  }

  lemma NewAboveEarlier(u: Setup, s: System, a: nat, base: int, s': System, p: nat, o: nat)
    requires IdsMatch(u, s) && a <= s.frontier && Ahead(u, s, base) && SettledBelow(u, s, FirstNewStamp(u, s, a, base))
    requires p < o && s.frontier <= o && !u.poison(p) && Placed(u, s, a, base, s', p) && Placed(u, s, a, base, s', o)
    ensures StampOf(u, s', p) < StampOf(u, s', o)
  {
    RankGrows(u, a, s.frontier, o);
    if p < s.frontier {
      assert Enqueuable(u, s, p);
    } else {
      RankGrows(u, a, p, o);
    }
  }

  lemma DeliveryAbove(u: Setup, s: System, a: nat, b: nat, base: int, s': System)
    requires u.Valid() && IdsMatch(u, s) && Ahead(u, s, base) && a <= b && a <= s.frontier
    requires Delivered(u, s, a, b, base, s') && IdsMatch(u, s') && SettledBelow(u, s, FirstNewStamp(u, s, a, base))
    ensures NewAboveAll(u, s, s')
  {
    forall p: nat, o: nat | p < o && s.frontier <= o && Enqueuable(u, s', p) && Enqueuable(u, s', o)
      ensures StampOf(u, s', p) < StampOf(u, s', o)
    {
      DeliveredPlaced(u, s, a, b, base, s', p);
      DeliveredPlaced(u, s, a, b, base, s', o);
      NewAboveEarlier(u, s, a, base, s', p, o);
    }
  }

  lemma FirstNewPlaced(u: Setup, s: System, a: nat, b: nat, base: int, s': System) returns (o: nat)
    requires u.Valid() && IdsMatch(u, s) && a <= s.frontier < b && a <= b && Delivered(u, s, a, b, base, s')
    requires Rank(u, a, s.frontier) < Rank(u, a, b)
    ensures s.frontier <= o && Enqueuable(u, s', o) && u.Id(o) in s'.t && StampOf(u, s', o) == FirstNewStamp(u, s, a, base)
  {
    o := FirstNew(u, a, s.frontier, b);
    DeliveredPlaced(u, s, a, b, base, s', o);
  }

  lemma OldStampKept(u: Setup, s: System, a: nat, b: nat, base: int, s': System, p: nat)
    requires u.Valid() && IdsMatch(u, s) && a <= b && Delivered(u, s, a, b, base, s') && Enqueuable(u, s, p)
    ensures Enqueuable(u, s', p) && u.Id(p) in s.t && u.Id(p) in s'.t && StampOf(u, s', p) == StampOf(u, s, p)
  {
    DeliveredPlaced(u, s, a, b, base, s', p);
  }

  lemma DeliveryAboveExactly(u: Setup, s: System, a: nat, b: nat, base: int, s': System)
    requires u.Valid() && IdsMatch(u, s) && Ahead(u, s, base) && a <= b && a <= s.frontier < b
    requires Delivered(u, s, a, b, base, s') && IdsMatch(u, s') && Rank(u, a, s.frontier) < Rank(u, a, b)
    ensures NewAboveAll(u, s, s') <==> SettledBelow(u, s, FirstNewStamp(u, s, a, base))
  {
    if SettledBelow(u, s, FirstNewStamp(u, s, a, base)) {
      DeliveryAbove(u, s, a, b, base, s');
    }
    if NewAboveAll(u, s, s') {
      var o := FirstNewPlaced(u, s, a, b, base, s');
      forall p: nat | Enqueuable(u, s, p) ensures u.Id(p) in s.t && StampOf(u, s, p) < FirstNewStamp(u, s, a, base) {
        OldStampKept(u, s, a, b, base, s', p);
      }
    }
  }

  /**
  A delivery that has new messages, redelivered ones before them or not, stamps each above every earlier message
  exactly when the rows that have settled are stamped below the stamp that its first new message gets.
  */
  lemma StampsExceedAllExactly(u: Setup, s: System, ev: Event)
    requires u.Valid() && IdsMatch(u, s) && StampsOrdered(u, s) && ev.Deliver? && Possible(u, s, ev) && !ev.result.Failed?
    requires s.frontier < ev.end && Rank(u, ev.first, s.frontier) < Rank(u, ev.first, ev.end)
    ensures IdsMatch(u, NextSystem(u, s, ev))
    ensures NewAboveAll(u, s, NextSystem(u, s, ev))
            <==> SettledBelow(u, s, FirstNewStamp(u, s, ev.first, Base(Seeded(s.cursor, ev.seed), ev.now)))
  {
    EventKeepsIds(u, s, ev);
    BaseAhead(u, s, ev.now, ev.seed);
    DeliveryAboveExactly(u, s, ev.first, ev.end, Base(Seeded(s.cursor, ev.seed), ev.now), NextSystem(u, s, ev));
  }

  // ---------- Whole histories ----------

  // All messages, active or settled, are stamped in offset order and below the cursor.
  ghost predicate AllOrdered(u: Setup, s: System)
    requires IdsMatch(u, s)
  {
    && (forall o: nat, p: nat | o < p && Enqueuable(u, s, o) && Enqueuable(u, s, p) :: StampOf(u, s, o) < StampOf(u, s, p))
    && (s.cursor.Some? ==> forall o: nat | Enqueuable(u, s, o) :: StampOf(u, s, o) < s.cursor.value)
  }

  // The first delivery of a process comes when the clock is past every settled row of the key.
  ghost predicate Timely(u: Setup, s: System, ev: Event) {
    ev.Deliver? && s.cursor.None? ==> SettledBelow(u, s, ev.now)
  }

  ghost predicate AllTimely(u: Setup, s: System, evs: seq<Event>)
    requires History(u, s, evs)
    decreases |evs|
  {
    |evs| == 0 || (Timely(u, s, evs[0]) && AllTimely(u, NextSystem(u, s, evs[0]), evs[1..]))
  }

  lemma StampFixed(op: Op, id: string, row: Row)
    ensures NextRow(op, id, row).createdAt == row.createdAt
  {
  }

  // Events that leave the messages, their stamps and the cursor alone, or lose the cursor.
  lemma SameStampsKeep(u: Setup, s: System, s': System)
    requires IdsMatch(u, s) && AllOrdered(u, s) && IdsMatch(u, s') && s'.frontier == s.frontier
    requires s'.cursor == s.cursor || s'.cursor.None?
    requires forall o: nat | Enqueuable(u, s, o) :: StampOf(u, s', o) == StampOf(u, s, o)
    ensures AllOrdered(u, s')
  {
    forall o: nat ensures Enqueuable(u, s', o) <==> Enqueuable(u, s, o) {
    }
  }

  ghost predicate AboveAll(u: Setup, s: System, x: int)
    requires IdsMatch(u, s)
  {
    forall o: nat | Enqueuable(u, s, o) :: StampOf(u, s, o) < x
  }

  lemma BaseAboveAll(u: Setup, s: System, ev: Event)
    requires u.Valid() && IdsMatch(u, s) && AllOrdered(u, s) && ev.Deliver? && Possible(u, s, ev) && Timely(u, s, ev)
    ensures AboveAll(u, s, Base(Seeded(s.cursor, ev.seed), ev.now))
  {
    BaseAhead(u, s, ev.now, ev.seed);
  }

  lemma DeliveredAllOrdered(u: Setup, s: System, a: nat, b: nat, base: int, s': System)
    requires u.Valid() && IdsMatch(u, s) && AllOrdered(u, s) && AboveAll(u, s, base)
    requires a <= b && Delivered(u, s, a, b, base, s') && IdsMatch(u, s')
    requires s'.cursor == (if Rank(u, a, b) == 0 then s.cursor else Some(base + Rank(u, a, b)))
    ensures AllOrdered(u, s')
  {
    forall o: nat, p: nat | o < p && Enqueuable(u, s', o) && Enqueuable(u, s', p) ensures StampOf(u, s', o) < StampOf(u, s', p) {
      DeliveredPlaced(u, s, a, b, base, s', o);
      DeliveredPlaced(u, s, a, b, base, s', p);
      PlacedInOrder(u, s, a, base, s', o, p);
    }
    if s'.cursor.Some? {
      forall o: nat | Enqueuable(u, s', o) ensures StampOf(u, s', o) < s'.cursor.value {
        DeliveredPlaced(u, s, a, b, base, s', o);
        if o < s.frontier {
          assert Enqueuable(u, s, o);
        } else {
          RankGrows(u, a, o, b);
        }
      }
    }
  }

  lemma PlacedInOrder(u: Setup, s: System, a: nat, base: int, s': System, o: nat, p: nat)
    requires IdsMatch(u, s) && AllOrdered(u, s) && AboveAll(u, s, base) && o < p && !u.poison(o) && !u.poison(p)
    requires Placed(u, s, a, base, s', o) && Placed(u, s, a, base, s', p)
    ensures StampOf(u, s', o) < StampOf(u, s', p)
  {
    if o < s.frontier {
      assert Enqueuable(u, s, o);
      assert p < s.frontier ==> Enqueuable(u, s, p);
    } else {
      RankGrows(u, a, o, p);
    }
  }

  lemma FailedAllOrdered(u: Setup, s: System, s': System, x: int)
    requires IdsMatch(u, s) && AllOrdered(u, s) && AboveAll(u, s, x) && s'.t == s.t && s'.frontier == s.frontier && s'.resolved == s.resolved
    requires s'.cursor == s.cursor || (s'.cursor.Some? && x <= s'.cursor.value)
    ensures IdsMatch(u, s') && AllOrdered(u, s')
  {
    forall o: nat ensures Enqueuable(u, s', o) <==> Enqueuable(u, s, o) {
    }
  }

  lemma DeliverOrdered(u: Setup, s: System, ev: Event)
    requires u.Valid() && IdsMatch(u, s) && AllOrdered(u, s) && ev.Deliver? && Possible(u, s, ev) && Timely(u, s, ev)
    requires IdsMatch(u, NextSystem(u, s, ev))
    ensures AllOrdered(u, NextSystem(u, s, ev))
  {
    var base, s' := Base(Seeded(s.cursor, ev.seed), ev.now), NextSystem(u, s, ev);
    BaseAboveAll(u, s, ev);
    DeliverEffect(u, s, ev, s');
    if ev.result.Failed? {
      FailedAllOrdered(u, s, s', base);
    } else {
      DeliveredAllOrdered(u, s, ev.first, ev.end, base, s');
    }
  }

  lemma EventOrdered(u: Setup, s: System, ev: Event)
    requires u.Valid() && IdsMatch(u, s) && AllOrdered(u, s) && Possible(u, s, ev) && Timely(u, s, ev)
    ensures IdsMatch(u, NextSystem(u, s, ev)) && AllOrdered(u, NextSystem(u, s, ev))
  {
    EventKeepsIds(u, s, ev);
    var s' := NextSystem(u, s, ev);
    if ev.Deliver? {
      DeliverOrdered(u, s, ev);
    } else {
      forall o: nat | Enqueuable(u, s, o) ensures u.Id(o) in s'.t && StampOf(u, s', o) == StampOf(u, s, o) {
        if ev.Other? {
          StampFixed(ev.op, u.Id(o), s.t[u.Id(o)]);
        } else if ev.Dequeued? {
          StampFixed(ev.d.Update(), u.Id(o), s.t[u.Id(o)]);
        }
      }
      SameStampsKeep(u, s, s');
    }
  }

  lemma {:induction false} HistoryOrdered(u: Setup, s: System, evs: seq<Event>)
    requires u.Valid() && IdsMatch(u, s) && AllOrdered(u, s) && History(u, s, evs) && AllTimely(u, s, evs)
    ensures IdsMatch(u, Run(u, s, evs)) && AllOrdered(u, Run(u, s, evs))
    decreases |evs|
  {
    if |evs| > 0 {
      EventOrdered(u, s, evs[0]);
      HistoryOrdered(u, NextSystem(u, s, evs[0]), evs[1..]);
    }
  }

  /**
  The creation stamps of all messages of the partition, whatever has become of them, strictly increase with the offset,
  across batches, retries and restarts, if after each restart the clock is past the settled rows at the first delivery.
  */
  lemma StampsStrictlyIncrease(u: Setup, s: System, evs: seq<Event>, o: nat, p: nat)
    requires u.Valid() && Empty(s) && History(u, s, evs) && AllTimely(u, s, evs) && o < p && !u.poison(o) && !u.poison(p)
    ensures var e := Run(u, s, evs); u.Id(p) in e.t ==> u.Id(o) in e.t && StampOf(u, e, o) < StampOf(u, e, p)
  {
    HistoryOrdered(u, s, evs);
    var e := Run(u, s, evs);
    assert u.Id(p) in e.t ==> Enqueuable(u, e, p) && Enqueuable(u, e, o);
  }

  predicate NoRestart(evs: seq<Event>) {
    forall i | 0 <= i < |evs| :: !evs[i].Restart?
  }

  // A process that has not restarted and has no cursor has enqueued nothing.
  ghost predicate CursorSeen(u: Setup, s: System) {
    s.cursor.None? ==> forall o: nat :: !Enqueuable(u, s, o)
  }

  lemma CursorStaysSeen(u: Setup, s: System, ev: Event)
    requires u.Valid() && IdsMatch(u, s) && Possible(u, s, ev) && CursorSeen(u, s) && !ev.Restart?
    ensures CursorSeen(u, NextSystem(u, s, ev))
  {
    var s' := NextSystem(u, s, ev);
    if s'.cursor.None? {
      forall o: nat ensures !Enqueuable(u, s', o) {
        assert !Enqueuable(u, s, o);
        if ev.Deliver? && ev.first <= o < ev.end {
          RankGrows(u, ev.first, o, ev.end);
        }
      }
    }
  }

  lemma {:induction false} WithoutRestartTimely(u: Setup, s: System, evs: seq<Event>)
    requires u.Valid() && IdsMatch(u, s) && CursorSeen(u, s) && History(u, s, evs) && NoRestart(evs)
    ensures AllTimely(u, s, evs)
    decreases |evs|
  {
    if |evs| > 0 {
      assert !evs[0].Restart?;
      EventKeepsIds(u, s, evs[0]);
      CursorStaysSeen(u, s, evs[0]);
      WithoutRestartTimely(u, NextSystem(u, s, evs[0]), evs[1..]);
    }
  }

  /** In particular they strictly increase, whatever the clock does, as long as the process does not restart. */
  lemma StampsIncreaseWithoutRestart(u: Setup, s: System, evs: seq<Event>, o: nat, p: nat)
    requires u.Valid() && Empty(s) && History(u, s, evs) && NoRestart(evs) && o < p && !u.poison(o) && !u.poison(p)
    ensures var e := Run(u, s, evs); u.Id(p) in e.t ==> u.Id(o) in e.t && StampOf(u, e, o) < StampOf(u, e, p)
  {
    WithoutRestartTimely(u, s, evs);
    StampsStrictlyIncrease(u, s, evs, o, p);
  }

  // ---------- A restart at the wrong time ----------

  function Enqueued2(u: Setup): System {
    System(map[u.Id(0) := u.Prepared(0, 5), u.Id(1) := u.Prepared(1, 6)], Some(7), 2, 2)
  }

  function Ended(row: Row): Row {
    row.(status := Success, outcome := Some(Returned("")))
  }

  function Settled2(u: Setup): System {
    System(map[u.Id(0) := Ended(u.Prepared(0, 5)), u.Id(1) := Ended(u.Prepared(1, 6))], None, 2, 2)
  }

  lemma FirstDelivery(u: Setup, s: System, ev: Event)
    requires u.Valid() && !u.poison(0) && !u.poison(1) && Empty(s) && ev == Deliver(0, 2, 5, None, Durable)
    ensures Possible(u, s, ev) && NextSystem(u, s, ev) == Enqueued2(u)
  {
    assert Rank(u, 0, 1) == 1 && Rank(u, 0, 2) == 2;
    assert BatchRows(u, 0, 1, 5) == map[u.Id(0) := u.Prepared(0, 5)];
    assert BatchRows(u, 0, 2, 5) == map[u.Id(0) := u.Prepared(0, 5), u.Id(1) := u.Prepared(1, 6)];
    Enqueues(s.t, BatchRows(u, 0, 2, 5));
    assert NextSystem(u, s, ev).t == Enqueued2(u).t;
  }

  lemma EndsOne(u: Setup, t: Table, o: nat)
    requires u.Id(o) in t && t[u.Id(o)].status.Enqueued? && t[u.Id(o)].dedupId.None?
    ensures Next(t, RecordOutcome(u.Id(o), Returned(""))) == t[u.Id(o) := Ended(t[u.Id(o)])]
  {
  }

  // One message's workflow returns.
  function EndOf(u: Setup, o: nat): Event {
    Other(RecordOutcome(u.Id(o), Returned("")))
  }

  lemma EndStep(u: Setup, s: System, o: nat, t: Table)
    requires u.Id(o) in s.t && s.t[u.Id(o)].status.Enqueued? && s.t[u.Id(o)].dedupId.None? && t == s.t[u.Id(o) := Ended(s.t[u.Id(o)])]
    ensures Possible(u, s, EndOf(u, o)) && NextSystem(u, s, EndOf(u, o)) == s.(t := t)
  {
    EndsOne(u, s.t, o);
  }

  function HalfEnded(u: Setup): Table {
    map[u.Id(0) := Ended(u.Prepared(0, 5)), u.Id(1) := u.Prepared(1, 6)]
  }

  lemma BothEnd(u: Setup, s: System) returns (evs: seq<Event>)
    requires u.Valid() && s == Enqueued2(u)
    ensures History(u, s, evs) && Run(u, s, evs) == Settled2(u)
  {
    assert u.Id(0) != u.Id(1);
    var s1, s2 := s.(t := HalfEnded(u)), s.(t := Settled2(u).t);
    EndStep(u, s, 0, s1.t);
    EndStep(u, s1, 1, s2.t);
    Unfold(u, s2, Restart, []);
    Unfold(u, s1, EndOf(u, 1), [Restart] + []);
    Unfold(u, s, EndOf(u, 0), [EndOf(u, 1)] + ([Restart] + []));
    evs := [EndOf(u, 0)] + ([EndOf(u, 1)] + ([Restart] + []));
  }

  lemma LateDelivery(u: Setup, ev: Event)
    requires u.Valid() && !u.poison(2) && ev == Deliver(2, 3, 6, None, Durable)
    ensures Possible(u, Settled2(u), ev)
    ensures NextSystem(u, Settled2(u), ev).t == Settled2(u).t[u.Id(2) := u.Prepared(2, 6)]
  {
    NoneActive(u);
    OneBatch(u, 2, 6);
    AddsOne(Settled2(u).t, u.Id(2), u.Prepared(2, 6));
    assert u.Id(2) != u.Id(0) && u.Id(2) != u.Id(1);
  }

  lemma NoneActive(u: Setup)
    ensures ActiveStamps(Settled2(u).t, u.key) == {}
  {
  }

  lemma OneBatch(u: Setup, o: nat, base: int)
    requires !u.poison(o)
    ensures Rank(u, o, o + 1) == 1 && BatchRows(u, o, o + 1, base) == map[u.Id(o) := u.Prepared(o, base)]
  {
    assert Rank(u, o, o) == 0 && BatchRows(u, o, o, base) == map[];
  }

  lemma AddsOne(t: Table, id: string, row: Row)
    ensures id !in t ==> Next(t, EnqueueMany(map[id := row])) == t[id := row]
  {
    Enqueues(t, map[id := row]);
  }

  /**
  Two messages enqueued at clock 5 are stamped 5 and 6 and complete; the process restarts and at clock 6 stamps the
  next one 6, not above its predecessor. The order of execution is not broken, because that one is no longer active.
  */
  lemma CompletedRowsAreOvertaken(u: Setup, s: System) returns (evs: seq<Event>)
    requires u.Valid() && !u.poison(0) && !u.poison(1) && !u.poison(2) && Empty(s)
    ensures History(u, s, evs)
    ensures var e := Run(u, s, evs);
            u.Id(1) in e.t && u.Id(2) in e.t && StampOf(u, e, 1) == 6 == StampOf(u, e, 2)
  {
    var first, last := Deliver(0, 2, 5, None, Durable), Deliver(2, 3, 6, None, Durable);
    FirstDelivery(u, s, first);
    var middle := BothEnd(u, Enqueued2(u));
    LateDelivery(u, last);
    Unfold(u, Settled2(u), last, []);
    Concat(u, Enqueued2(u), middle, [last] + []);
    Unfold(u, s, first, middle + ([last] + []));
    evs := [first] + (middle + ([last] + []));
    assert u.Id(1) != u.Id(2);
  }
}
