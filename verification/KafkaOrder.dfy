/**
Ordered Kafka consumption, end to end: one partition of one topic, read by one consumer group with ordering
"partition", enqueued in batches onto the shared partitioned queue whose concurrency is one per key.

Messages are named by their position in the partition. Some are poison: their arguments cannot be serialized, and
they are dropped. A chunk is enqueued in one transaction, and its offsets are resolved only after that transaction;
after a crash the broker redelivers from some offset that is not past the resolved ones.
*/
module KafkaOrder {
  import opened Common
  import opened WorkflowStatus
  import opened QueueDispatch
  import opened KafkaIds

  // ---------- Monotone creation stamps ----------

  function Max(a: int, b: int): int {
    if a < b then b else a
  }

  // The first stamp of a batch for a key: the clock, unless the key's cursor is ahead of it.
  function Base(cursor: Option<int>, now: int): int {
    Max(now, if cursor.Some? then cursor.value else 0)
  }

  predicate Active(row: Row) {
    row.status.Enqueued? || row.status.Pending?
  }

  function ActiveStamps(t: Table, key: string): set<int> {
    set id | id in t && t[id].partition == Some(key) && Active(t[id]) :: t[id].createdAt
  }

  // The seed of a key seen for the first time by this process: the highest active stamp.
  predicate IsMaximum(s: set<int>, m: Option<int>) {
    if m.None? then s == {} else m.value in s && forall x | x in s :: x <= m.value
  }

  // ---------- The system ----------

  // What the consumer of one partition is set up with. Messages for which `poison` holds are dropped.
  datatype Setup = Setup(
    Id: nat -> string, key: string, poison: nat -> bool, input: nat -> string,
    queue: Queue, version: string, executor: string, workflow: string)
  {
    ghost predicate Valid() {
      queue.concurrency == Some(1) && forall o: nat, p: nat :: Id(o) == Id(p) ==> o == p
    }

    function Target(): Scope {
      Scope(queue.name, Some(key))
    }

    function Prepared(o: nat, createdAt: int): Row {
      Row(Enqueued, workflow, "", "", Some(queue.name), Some(key), 0, executor, Some(version), createdAt, 0, None, None,
          input(o), None, None, None, None, None, false, None, None, false)
    }
  }

  function SetupFor(src: Source, poison: nat -> bool, input: nat -> string, queue: Queue, version: string, executor: string,
                    workflow: string): Setup
  {
    Setup((o: nat) => MessageId(src, o), PartitionKey(src), poison, input, queue, version, executor, workflow)
  }

  /** The receiver's own IDs meet what the results below ask of them. */
  lemma ReceiverSetupIsValid(src: Source, poison: nat -> bool, input: nat -> string, queue: Queue, version: string,
                             executor: string, workflow: string)
    requires queue.concurrency == Some(1)
    ensures SetupFor(src, poison, input, queue, version, executor, workflow).Valid()
  {
    forall o: nat, p: nat | MessageId(src, o) == MessageId(src, p) ensures o == p {
      MessageIdInjective(src, o, p);
    }
  }

  // Messages in [a, o) that are not poison: their number is the rank of message o in a batch that begins at a.
  function Rank(u: Setup, a: nat, o: nat): nat
    requires a <= o
    decreases o - a
  {
    if a == o then 0 else Rank(u, a, o - 1) + if u.poison(o - 1) then 0 else 1
  }

  lemma {:induction false} RankGrows(u: Setup, a: nat, o: nat, p: nat)
    requires a <= o <= p
    ensures Rank(u, a, o) <= Rank(u, a, p)
    ensures o < p && !u.poison(o) ==> Rank(u, a, o) < Rank(u, a, p)
    decreases p - o
  {
    if o < p {
      RankGrows(u, a, o, p - 1);
    }
  }

  // The rows of a chunk [a, b), stamped from `base` on.
  function BatchRows(u: Setup, a: nat, b: nat, base: int): Table
    requires a <= b
    decreases b - a
  {
    if a == b then map[]
    else
      var rest := BatchRows(u, a, b - 1, base);
      if u.poison(b - 1) then rest else rest[u.Id(b - 1) := u.Prepared(b - 1, base + Rank(u, a, b - 1))]
  }

  lemma {:induction false} BatchHas(u: Setup, a: nat, b: nat, base: int, o: nat)
    requires u.Valid() && a <= o < b && !u.poison(o)
    ensures u.Id(o) in BatchRows(u, a, b, base) && BatchRows(u, a, b, base)[u.Id(o)] == u.Prepared(o, base + Rank(u, a, o))
    decreases b - a
  {
    if o < b - 1 {
      BatchHas(u, a, b - 1, base, o);
    }
  }

  lemma {:induction false} BatchOnly(u: Setup, a: nat, b: nat, base: int, id: string) returns (o: nat)
    requires a <= b && id in BatchRows(u, a, b, base)
    ensures a <= o < b && !u.poison(o) && id == u.Id(o) && BatchRows(u, a, b, base)[id] == u.Prepared(o, base + Rank(u, a, o))
    decreases b - a
  {
    if !u.poison(b - 1) && id == u.Id(b - 1) {
      o := b - 1;
    } else {
      o := BatchOnly(u, a, b - 1, base, id);
    }
  }

  lemma Enqueues(t: Table, rows: Table)
    ensures var t' := Next(t, EnqueueMany(rows));
            && (forall id | id in t :: id in t' && t'[id] == t[id])
            && (forall id | id in rows && id !in t :: id in t' && t'[id] == rows[id])
            && (forall id | id in t' && id !in t :: id in rows)
  {
  }

  datatype System = System(
    t: Table,
    cursor: Option<int>,   // this process's cursor for the key; lost in a restart
    resolved: nat,         // the offsets resolved so far
    frontier: nat)         // the messages whose chunk has been committed so far, acknowledged or not

  datatype Result = Failed | Unacknowledged | Durable

  datatype Event =
    | Deliver(first: nat, end: nat, now: int, seed: Option<int>, result: Result)
    | Restart
    | Dequeued(d: Dequeue)
    | Other(op: Op)

  // Other callers insert nothing with this key or with a message's ID.
  ghost predicate Foreign(u: Setup, id: string, row: Row) {
    row.partition != Some(u.key) && forall o: nat :: id != u.Id(o)
  }

  ghost predicate InsertsForeign(u: Setup, t: Table, op: Op) {
    && (op.Init? ==> op.id in t || Foreign(u, op.id, op.row))
    && (op.EnqueueMany? ==> forall id | id in op.rows :: id in t || Foreign(u, id, op.rows[id]))
  }

  ghost predicate Possible(u: Setup, s: System, ev: Event) {
    match ev
    case Deliver(a, b, _, seed, _) => a <= s.resolved && a <= b && IsMaximum(ActiveStamps(s.t, u.key), seed)
    case Restart => true
    case Dequeued(d) => d.Legal(s.t)
    case Other(op) => Enabled(op) && InsertsForeign(u, s.t, op)
  }

  // The cursor that a batch starts from, seeded from the database on first sight of the key.
  function Seeded(cursor: Option<int>, seed: Option<int>): Option<int> {
    if cursor.Some? then cursor else if seed.Some? then Some(Max(0, seed.value + 1)) else None
  }

  function Later(a: nat, b: nat): nat {
    if a < b then b else a
  }

  function DeliverStep(u: Setup, s: System, a: nat, b: nat, now: int, seed: Option<int>, result: Result): System
    requires a <= b
  {
    var base := Base(Seeded(s.cursor, seed), now);
    var s1 := if Rank(u, a, b) == 0 then s else s.(cursor := Some(base + Rank(u, a, b)));
    if result.Failed? then s1
    else s1.(t := Next(s.t, EnqueueMany(BatchRows(u, a, b, base))),
             frontier := Later(s.frontier, b),
             resolved := if result.Durable? then Later(s.resolved, b) else s.resolved)
  }

  function NextSystem(u: Setup, s: System, ev: Event): System
    requires ev.Deliver? ==> ev.first <= ev.end
  {
    match ev
    case Deliver(a, b, now, seed, result) => DeliverStep(u, s, a, b, now, seed, result)
    case Restart => s.(cursor := None)
    case Dequeued(d) => s.(t := Next(s.t, d.Update()))
    case Other(op) => s.(t := Next(s.t, op))
  }

  ghost predicate History(u: Setup, s: System, evs: seq<Event>)
    decreases |evs|
  {
    |evs| == 0 || (Possible(u, s, evs[0]) && History(u, NextSystem(u, s, evs[0]), evs[1..]))
  }

  ghost function Run(u: Setup, s: System, evs: seq<Event>): System
    requires History(u, s, evs)
    decreases |evs|
  {
    if |evs| == 0 then s else Run(u, NextSystem(u, s, evs[0]), evs[1..])
  }

  predicate Empty(s: System) {
    s == System(map[], None, 0, 0)
  }

  // ---------- What is kept ----------

  // A message that has been handled and was not dropped.
  predicate Enqueuable(u: Setup, s: System, o: nat) {
    o < s.frontier && !u.poison(o)
  }

  // Exactly the handled messages that were not dropped have rows, and only they carry the key.
  ghost predicate IdsMatch(u: Setup, s: System) {
    && s.resolved <= s.frontier
    && (forall o: nat :: u.Id(o) in s.t ==> Enqueuable(u, s, o))
    && (forall o: nat | Enqueuable(u, s, o) :: u.Id(o) in s.t && s.t[u.Id(o)].partition == Some(u.key) && !s.t[u.Id(o)].status.Delayed?)
    && (forall id | id in s.t && s.t[id].partition == Some(u.key) :: exists o: nat :: Enqueuable(u, s, o) && id == u.Id(o))
  }

  // Active rows are stamped in offset order, below the cursor.
  ghost predicate StampsOrdered(u: Setup, s: System)
    requires IdsMatch(u, s)
  {
    && (forall o: nat, p: nat | o < p && Enqueuable(u, s, o) && Enqueuable(u, s, p) ::
          Active(s.t[u.Id(o)]) && Active(s.t[u.Id(p)]) ==> s.t[u.Id(o)].createdAt < s.t[u.Id(p)].createdAt)
    && (s.cursor.Some? ==> forall o: nat | Enqueuable(u, s, o) :: Active(s.t[u.Id(o)]) ==> s.t[u.Id(o)].createdAt < s.cursor.value)
  }

  // An active row is on the partition's queue, where all have one priority and one version.
  predicate InPlace(u: Setup, row: Row) {
    Active(row) ==> row.queue == Some(u.queue.name) && row.priority == 0 && row.appVersion == Some(u.version)
  }

  ghost predicate AllInPlace(u: Setup, s: System)
    requires IdsMatch(u, s)
  {
    forall o: nat | Enqueuable(u, s, o) :: InPlace(u, s.t[u.Id(o)])
  }

  ghost predicate Ok(u: Setup, s: System) {
    IdsMatch(u, s) && StampsOrdered(u, s) && AllInPlace(u, s)
  }

  // ---------- Operations of others ----------

  // A resume makes the row active, whatever it was.
  predicate Resumes(op: Op, id: string, row: Row) {
    op.Resume? && id in op.ids && !Completed(row.status)
  }

  // What the operation leaves in its place: a resume must put the row back on its queue, its priority must not be changed,
  // and it must not be claimed for another version.
  predicate LeavesInPlace(u: Setup, op: Op, id: string, row: Row) {
    match op
    case Resume(_, q) => Resumes(op, id, row) ==> q == u.queue.name && row.priority == 0 && row.appVersion == Some(u.version)
    case SetPriority(i, p) => id == i && row.status.Enqueued? ==> p == 0
    case Claim(ids, _, v, _, _, _) => id in ids && row.status.Enqueued? ==> v == u.version
    case _ => true
  }

  // A message with a row; every handled message that was not dropped has one.
  predicate Stored(u: Setup, s: System, o: nat) {
    Enqueuable(u, s, o) && u.Id(o) in s.t
  }

  // The resumed message is stamped between those before and those after it that are active or resumed with it.
  ghost predicate ResumesInOrder(u: Setup, s: System, op: Op, o: nat)
    requires Stored(u, s, o)
  {
    && (s.cursor.Some? ==> s.t[u.Id(o)].createdAt < s.cursor.value)
    && (forall p: nat | Stored(u, s, p) && p != o :: Active(s.t[u.Id(p)]) || Resumes(op, u.Id(p), s.t[u.Id(p)]) ==>
          if p < o then s.t[u.Id(p)].createdAt < s.t[u.Id(o)].createdAt else s.t[u.Id(o)].createdAt < s.t[u.Id(p)].createdAt)
  }

  ghost predicate StampsFit(u: Setup, s: System, op: Op) {
    forall o: nat | Stored(u, s, o) :: Resumes(op, u.Id(o), s.t[u.Id(o)]) ==> ResumesInOrder(u, s, op, o)
  }

  ghost predicate PlacesFit(u: Setup, s: System, op: Op) {
    forall o: nat | Stored(u, s, o) :: LeavesInPlace(u, op, u.Id(o), s.t[u.Id(o)])
  }

  // The operation leaves the messages that have not settled where they are; what it does to other workflows is free.
  ghost predicate Undisturbed(u: Setup, s: System, ev: Event) {
    ev.Other? ==> StampsFit(u, s, ev.op) && PlacesFit(u, s, ev.op)
  }

  ghost predicate AllUndisturbed(u: Setup, s: System, evs: seq<Event>)
    requires History(u, s, evs)
    decreases |evs|
  {
    |evs| == 0 || (Undisturbed(u, s, evs[0]) && AllUndisturbed(u, NextSystem(u, s, evs[0]), evs[1..]))
  }

  lemma RowKept(op: Op, id: string, row: Row)
    ensures var r := NextRow(op, id, row);
            && r.partition == row.partition && r.createdAt == row.createdAt
            && (!row.status.Delayed? ==> !r.status.Delayed? && (Active(r) ==> Active(row) || Resumes(op, id, row)))
            && (Resumes(op, id, row) ==> Active(r))
  {
  }

  lemma PlaceKeptExactly(u: Setup, op: Op, id: string, row: Row)
    requires InPlace(u, row) && !row.status.Delayed?
    ensures InPlace(u, NextRow(op, id, row)) <==> LeavesInPlace(u, op, id, row)
  {
  }

  lemma OtherKeepsIds(u: Setup, s: System, op: Op)
    requires IdsMatch(u, s) && InsertsForeign(u, s.t, op)
    ensures IdsMatch(u, s.(t := Next(s.t, op)))
  {
    var s' := s.(t := Next(s.t, op));
    forall id | id in s.t {
      RowKept(op, id, s.t[id]);
    }
    forall o: nat | u.Id(o) in s'.t ensures Enqueuable(u, s', o) {
      assert u.Id(o) in s.t;
    }
    forall id | id in s'.t && s'.t[id].partition == Some(u.key) ensures exists o: nat :: Enqueuable(u, s', o) && id == u.Id(o) {
      var o: nat :| Enqueuable(u, s, o) && id == u.Id(o);
      assert Enqueuable(u, s', o);
    }
  }

  // What has become of a message's row.
  lemma MessageKept(u: Setup, s: System, op: Op, s': System, o: nat)
    requires IdsMatch(u, s) && s' == s.(t := Next(s.t, op)) && Enqueuable(u, s, o)
    ensures Enqueuable(u, s', o) && u.Id(o) in s'.t && s'.t[u.Id(o)] == NextRow(op, u.Id(o), s.t[u.Id(o)])
    ensures s'.t[u.Id(o)].createdAt == s.t[u.Id(o)].createdAt
    ensures Active(s'.t[u.Id(o)]) ==> Active(s.t[u.Id(o)]) || Resumes(op, u.Id(o), s.t[u.Id(o)])
    ensures Resumes(op, u.Id(o), s.t[u.Id(o)]) ==> Active(s'.t[u.Id(o)])
  {
    RowKept(op, u.Id(o), s.t[u.Id(o)]);
  }

  lemma StampsKept(u: Setup, s: System, op: Op, s': System)
    requires IdsMatch(u, s) && StampsOrdered(u, s) && s' == s.(t := Next(s.t, op)) && IdsMatch(u, s') && StampsFit(u, s, op)
    ensures StampsOrdered(u, s')
  {
    forall o: nat, p: nat | o < p && Enqueuable(u, s', o) && Enqueuable(u, s', p) && Active(s'.t[u.Id(o)]) && Active(s'.t[u.Id(p)])
      ensures s'.t[u.Id(o)].createdAt < s'.t[u.Id(p)].createdAt
    {
      assert Stored(u, s, o) && Stored(u, s, p);
      MessageKept(u, s, op, s', o);
      MessageKept(u, s, op, s', p);
    }
    if s'.cursor.Some? {
      forall o: nat | Enqueuable(u, s', o) && Active(s'.t[u.Id(o)]) ensures s'.t[u.Id(o)].createdAt < s'.cursor.value {
        assert Stored(u, s, o);
        MessageKept(u, s, op, s', o);
      }
    }
  }

  lemma PlacesKept(u: Setup, s: System, op: Op, s': System)
    requires IdsMatch(u, s) && AllInPlace(u, s) && s' == s.(t := Next(s.t, op)) && IdsMatch(u, s') && PlacesFit(u, s, op)
    ensures AllInPlace(u, s')
  {
    forall o: nat | Enqueuable(u, s', o) ensures InPlace(u, s'.t[u.Id(o)]) {
      assert Stored(u, s, o);
      PlaceKeptExactly(u, op, u.Id(o), s.t[u.Id(o)]);
    }
  }

  // The message's own row shows whether an operation has disturbed it.
  lemma ResumedInOrder(u: Setup, s: System, op: Op, s': System, o: nat, p: nat)
    requires IdsMatch(u, s) && StampsOrdered(u, s) && s' == s.(t := Next(s.t, op)) && IdsMatch(u, s') && StampsOrdered(u, s')
    requires Enqueuable(u, s, o) && Enqueuable(u, s, p) && p != o && Resumes(op, u.Id(o), s.t[u.Id(o)])
    requires Active(s.t[u.Id(p)]) || Resumes(op, u.Id(p), s.t[u.Id(p)])
    ensures if p < o then s.t[u.Id(p)].createdAt < s.t[u.Id(o)].createdAt else s.t[u.Id(o)].createdAt < s.t[u.Id(p)].createdAt
  {
    MessageKept(u, s, op, s', o);
    MessageKept(u, s, op, s', p);
  }

  lemma OrderedMeansFit(u: Setup, s: System, op: Op, s': System)
    requires IdsMatch(u, s) && StampsOrdered(u, s) && s' == s.(t := Next(s.t, op)) && IdsMatch(u, s') && StampsOrdered(u, s')
    ensures StampsFit(u, s, op)
  {
    forall o: nat | Stored(u, s, o) && Resumes(op, u.Id(o), s.t[u.Id(o)]) ensures ResumesInOrder(u, s, op, o) {
      MessageKept(u, s, op, s', o);
      forall p: nat | Stored(u, s, p) && p != o && (Active(s.t[u.Id(p)]) || Resumes(op, u.Id(p), s.t[u.Id(p)]))
        ensures if p < o then s.t[u.Id(p)].createdAt < s.t[u.Id(o)].createdAt else s.t[u.Id(o)].createdAt < s.t[u.Id(p)].createdAt
      {
        ResumedInOrder(u, s, op, s', o, p);
      }
    }
  }

  lemma PlacedMeansFit(u: Setup, s: System, op: Op, s': System)
    requires IdsMatch(u, s) && AllInPlace(u, s) && s' == s.(t := Next(s.t, op)) && IdsMatch(u, s') && AllInPlace(u, s')
    ensures PlacesFit(u, s, op)
  {
    forall o: nat | Stored(u, s, o) ensures LeavesInPlace(u, op, u.Id(o), s.t[u.Id(o)]) {
      MessageKept(u, s, op, s', o);
      PlaceKeptExactly(u, op, u.Id(o), s.t[u.Id(o)]);
    }
  }

  /** The condition on the operations of others is exact. */
  lemma OtherKeepsOrderExactly(u: Setup, s: System, op: Op)
    requires Ok(u, s) && Possible(u, s, Other(op))
    ensures Ok(u, NextSystem(u, s, Other(op))) <==> Undisturbed(u, s, Other(op))
  {
    var s' := NextSystem(u, s, Other(op));
    OtherKeepsIds(u, s, op);
    if Undisturbed(u, s, Other(op)) {
      StampsKept(u, s, op, s');
      PlacesKept(u, s, op, s');
    }
    if Ok(u, s') {
      OrderedMeansFit(u, s, op, s');
      PlacedMeansFit(u, s, op, s');
    }
  }

  // No message is among the workflows resumed, or it has completed.
  predicate SparesMessages(u: Setup, t: Table, ids: set<string>) {
    forall id | id in t && id in ids && t[id].partition == Some(u.key) :: Completed(t[id].status)
  }

  /** In particular, a resume onto another queue, as the default one is, keeps the order exactly if it resumes no message. */
  lemma ResumeElsewhereExactly(u: Setup, s: System, ids: set<string>, queue: string)
    requires Ok(u, s) && queue != u.queue.name
    ensures Ok(u, NextSystem(u, s, Other(Resume(ids, queue)))) <==> SparesMessages(u, s.t, ids)
  {
    var op := Resume(ids, queue);
    OtherKeepsOrderExactly(u, s, op);
    if SparesMessages(u, s.t, ids) {
      forall o: nat | Stored(u, s, o) ensures !Resumes(op, u.Id(o), s.t[u.Id(o)]) {
      }
    } else {
      var id :| id in s.t && id in ids && s.t[id].partition == Some(u.key) && !Completed(s.t[id].status);
      var o: nat :| Enqueuable(u, s, o) && id == u.Id(o);
      assert Stored(u, s, o) && !LeavesInPlace(u, op, id, s.t[id]);
    }
  }

  // A dequeue claims rows of its own version only.
  lemma DequeuedFits(u: Setup, s: System, d: Dequeue)
    requires Ok(u, s) && d.Legal(s.t)
    ensures PlacesFit(u, s, d.Update())
  {
    ClaimsBounded(d, s.t);
    forall o: nat | Stored(u, s, o) ensures LeavesInPlace(u, d.Update(), u.Id(o), s.t[u.Id(o)]) {
      assert InPlace(u, s.t[u.Id(o)]);
    }
  }

  // ---------- A delivery ----------

  lemma BaseIsAhead(u: Setup, s: System, now: int, seed: Option<int>, o: nat)
    requires IdsMatch(u, s) && StampsOrdered(u, s) && IsMaximum(ActiveStamps(s.t, u.key), seed) && Enqueuable(u, s, o) && Active(s.t[u.Id(o)])
    ensures s.t[u.Id(o)].createdAt < Base(Seeded(s.cursor, seed), now)
  {
    if s.cursor.None? {
      assert s.t[u.Id(o)].createdAt in ActiveStamps(s.t, u.key);
    }
  }

  // What the delivery leaves for message o: the row it had, or the prepared row with its stamp.
  lemma DeliveredRow(u: Setup, s: System, a: nat, b: nat, base: int, o: nat)
    requires u.Valid() && IdsMatch(u, s) && a <= s.resolved && a <= b && !u.poison(o)
    requires o < s.frontier || o < b
    ensures var t' := Next(s.t, EnqueueMany(BatchRows(u, a, b, base)));
            && u.Id(o) in t'
            && (o < s.frontier ==> u.Id(o) in s.t && t'[u.Id(o)] == s.t[u.Id(o)])
            && (o >= s.frontier ==> a <= o && u.Id(o) !in s.t && t'[u.Id(o)] == u.Prepared(o, base + Rank(u, a, o)))
  {
    Enqueues(s.t, BatchRows(u, a, b, base));
    if o < s.frontier {
      assert Enqueuable(u, s, o);
    } else {
      assert !Enqueuable(u, s, o);
      BatchHas(u, a, b, base, o);
    }
  }

  lemma DeliveryInserts(u: Setup, s: System, a: nat, b: nat, base: int, id: string) returns (o: nat)
    requires u.Valid() && IdsMatch(u, s) && a <= s.resolved && a <= b
    requires id in Next(s.t, EnqueueMany(BatchRows(u, a, b, base))) && id !in s.t
    ensures s.frontier <= o < b && !u.poison(o) && id == u.Id(o)
  {
    Enqueues(s.t, BatchRows(u, a, b, base));
    o := BatchOnly(u, a, b, base, id);
    assert !Enqueuable(u, s, o);
  }

  predicate Delivered(u: Setup, s: System, a: nat, b: nat, base: int, s': System)
    requires a <= b
  {
    && a <= s.resolved && s'.t == Next(s.t, EnqueueMany(BatchRows(u, a, b, base)))
    && s'.frontier == Later(s.frontier, b) && s'.resolved <= s'.frontier
  }

  // A message's row that is as it was, or new and prepared.
  ghost predicate OldOrPrepared(u: Setup, s: System, s': System, o: nat) {
    u.Id(o) in s'.t &&
    (if o < s.frontier then u.Id(o) in s.t && s'.t[u.Id(o)] == s.t[u.Id(o)] else exists stamp :: s'.t[u.Id(o)] == u.Prepared(o, stamp))
  }

  lemma DeliveredHas(u: Setup, s: System, a: nat, b: nat, base: int, s': System, o: nat)
    requires u.Valid() && IdsMatch(u, s) && a <= b && Delivered(u, s, a, b, base, s') && Enqueuable(u, s', o)
    ensures OldOrPrepared(u, s, s', o)
    ensures o < s.frontier ==> Enqueuable(u, s, o)
  {
    DeliveredRow(u, s, a, b, base, o);
  }

  lemma DeliveredOnly(u: Setup, s: System, a: nat, b: nat, base: int, s': System, id: string) returns (o: nat)
    requires u.Valid() && IdsMatch(u, s) && a <= b && Delivered(u, s, a, b, base, s')
    requires id in s'.t && (id in s.t ==> s.t[id].partition == Some(u.key))
    ensures Enqueuable(u, s', o) && id == u.Id(o)
  {
    if id in s.t {
      o :| Enqueuable(u, s, o) && id == u.Id(o);
    } else {
      o := DeliveryInserts(u, s, a, b, base, id);
    }
  }

  lemma DeliveredMatches(u: Setup, s: System, a: nat, b: nat, base: int, s': System)
    requires u.Valid() && IdsMatch(u, s) && a <= b && Delivered(u, s, a, b, base, s')
    ensures IdsMatch(u, s')
  {
    forall o: nat | Enqueuable(u, s', o)
      ensures u.Id(o) in s'.t && s'.t[u.Id(o)].partition == Some(u.key) && !s'.t[u.Id(o)].status.Delayed?
    {
      DeliveredHas(u, s, a, b, base, s', o);
    }
    forall o: nat | u.Id(o) in s'.t ensures Enqueuable(u, s', o) {
      if u.Id(o) in s.t {
        assert Enqueuable(u, s, o);
      } else {
        var p := DeliveredOnly(u, s, a, b, base, s', u.Id(o));
      }
    }
    forall id | id in s'.t && s'.t[id].partition == Some(u.key) ensures exists o: nat :: Enqueuable(u, s', o) && id == u.Id(o) {
      if id in s.t {
        Enqueues(s.t, BatchRows(u, a, b, base));
      }
      var o := DeliveredOnly(u, s, a, b, base, s', id);
    }
  }

  lemma DeliveredInPlace(u: Setup, s: System, a: nat, b: nat, base: int, s': System)
    requires u.Valid() && IdsMatch(u, s) && AllInPlace(u, s) && a <= b && Delivered(u, s, a, b, base, s') && IdsMatch(u, s')
    ensures AllInPlace(u, s')
  {
    forall o: nat | Enqueuable(u, s', o) ensures InPlace(u, s'.t[u.Id(o)]) {
      DeliveredHas(u, s, a, b, base, s', o);
    }
  }

  // Message o has the row it had, or a new one with its stamp.
  predicate Placed(u: Setup, s: System, a: nat, base: int, s': System, o: nat) {
    && u.Id(o) in s'.t
    && (o < s.frontier ==> u.Id(o) in s.t && s'.t[u.Id(o)] == s.t[u.Id(o)])
    && (o >= s.frontier ==> a <= o && s'.t[u.Id(o)].createdAt == base + Rank(u, a, o))
  }

  lemma DeliveredOrdered(u: Setup, s: System, a: nat, base: int, s': System, o: nat, p: nat)
    requires IdsMatch(u, s) && StampsOrdered(u, s) && o < p && !u.poison(o) && !u.poison(p)
    requires Placed(u, s, a, base, s', o) && Placed(u, s, a, base, s', p)
    requires Active(s'.t[u.Id(o)]) && Active(s'.t[u.Id(p)])
    requires o < s.frontier && Active(s.t[u.Id(o)]) ==> s.t[u.Id(o)].createdAt < base
    ensures s'.t[u.Id(o)].createdAt < s'.t[u.Id(p)].createdAt
  {
    if p < s.frontier {
      assert Enqueuable(u, s, o) && Enqueuable(u, s, p);
    } else if o >= s.frontier {
      RankGrows(u, a, o, p);
    }
  }

  lemma DeliveredPlaced(u: Setup, s: System, a: nat, b: nat, base: int, s': System, o: nat)
    requires u.Valid() && IdsMatch(u, s) && a <= b && Delivered(u, s, a, b, base, s') && Enqueuable(u, s', o)
    ensures Placed(u, s, a, base, s', o)
  {
    DeliveredRow(u, s, a, b, base, o);
  }

  // The base of the batch is above every active stamp.
  ghost predicate Ahead(u: Setup, s: System, base: int)
    requires IdsMatch(u, s)
  {
    forall o: nat | Enqueuable(u, s, o) :: Active(s.t[u.Id(o)]) ==> s.t[u.Id(o)].createdAt < base
  }

  lemma BaseAhead(u: Setup, s: System, now: int, seed: Option<int>)
    requires IdsMatch(u, s) && StampsOrdered(u, s) && IsMaximum(ActiveStamps(s.t, u.key), seed)
    ensures Ahead(u, s, Base(Seeded(s.cursor, seed), now))
  {
    forall o: nat | Enqueuable(u, s, o) && Active(s.t[u.Id(o)]) ensures s.t[u.Id(o)].createdAt < Base(Seeded(s.cursor, seed), now) {
      BaseIsAhead(u, s, now, seed, o);
    }
  }

  lemma DeliveredStamps(u: Setup, s: System, a: nat, b: nat, base: int, s': System)
    requires u.Valid() && IdsMatch(u, s) && StampsOrdered(u, s) && a <= b && Delivered(u, s, a, b, base, s')
    requires IdsMatch(u, s') && Ahead(u, s, base)
    requires s'.cursor == (if Rank(u, a, b) == 0 then s.cursor else Some(base + Rank(u, a, b)))
    ensures StampsOrdered(u, s')
  {
    forall o: nat, p: nat | o < p && Enqueuable(u, s', o) && Enqueuable(u, s', p) && Active(s'.t[u.Id(o)]) && Active(s'.t[u.Id(p)])
      ensures s'.t[u.Id(o)].createdAt < s'.t[u.Id(p)].createdAt
    {
      DeliveredPlaced(u, s, a, b, base, s', o);
      DeliveredPlaced(u, s, a, b, base, s', p);
      assert o < s.frontier ==> Enqueuable(u, s, o);
      DeliveredOrdered(u, s, a, base, s', o, p);
    }
    if s'.cursor.Some? {
      forall o: nat | Enqueuable(u, s', o) && Active(s'.t[u.Id(o)]) ensures s'.t[u.Id(o)].createdAt < s'.cursor.value {
        DeliveredPlaced(u, s, a, b, base, s', o);
        if o < s.frontier {
          assert Enqueuable(u, s, o);
        } else {
          RankGrows(u, a, o, b);
        }
      }
    }
  }

  // The same table, with the cursor lost or moved ahead.
  lemma CursorAdvances(u: Setup, s: System, s': System, x: int)
    requires IdsMatch(u, s) && StampsOrdered(u, s) && Ahead(u, s, x)
    requires s'.t == s.t && s'.frontier == s.frontier && s'.resolved == s.resolved
    requires s'.cursor == s.cursor || s'.cursor.None? || x <= s'.cursor.value
    ensures IdsMatch(u, s') && StampsOrdered(u, s')
  {
    assert forall o: nat :: Enqueuable(u, s', o) <==> Enqueuable(u, s, o);
  }

  // The cursor and the frontier after a delivery.
  lemma DeliverEffect(u: Setup, s: System, ev: Event, s': System)
    requires ev.Deliver? && ev.first <= s.resolved <= s.frontier && ev.first <= ev.end && s' == NextSystem(u, s, ev)
    ensures var base := Base(Seeded(s.cursor, ev.seed), ev.now);
            && s'.cursor == (if Rank(u, ev.first, ev.end) == 0 then s.cursor else Some(base + Rank(u, ev.first, ev.end)))
            && if ev.result.Failed? then s'.t == s.t && s'.frontier == s.frontier && s'.resolved == s.resolved
               else Delivered(u, s, ev.first, ev.end, base, s')
  {
  }

  /** Every event keeps the rows and the offsets together, whoever resumes, reprioritizes or claims what. */
  lemma EventKeepsIds(u: Setup, s: System, ev: Event)
    requires u.Valid() && IdsMatch(u, s) && Possible(u, s, ev)
    ensures IdsMatch(u, NextSystem(u, s, ev))
  {
    var s' := NextSystem(u, s, ev);
    match ev
    case Deliver(a, b, now, seed, result) =>
      DeliverEffect(u, s, ev, s');
      if result.Failed? {
        assert forall o: nat :: Enqueuable(u, s', o) <==> Enqueuable(u, s, o);
      } else {
        DeliveredMatches(u, s, a, b, Base(Seeded(s.cursor, seed), now), s');
      }
    case Restart => assert forall o: nat :: Enqueuable(u, s', o) <==> Enqueuable(u, s, o);
    case Dequeued(d) => OtherKeepsIds(u, s, d.Update());
    case Other(op) => OtherKeepsIds(u, s, op);
  }

  lemma {:induction false} RunKeepsIds(u: Setup, s: System, evs: seq<Event>)
    requires u.Valid() && IdsMatch(u, s) && History(u, s, evs)
    ensures IdsMatch(u, Run(u, s, evs))
    decreases |evs|
  {
    if |evs| > 0 {
      EventKeepsIds(u, s, evs[0]);
      RunKeepsIds(u, NextSystem(u, s, evs[0]), evs[1..]);
    }
  }

  lemma DeliverKeepsStamps(u: Setup, s: System, ev: Event, s': System)
    requires u.Valid() && IdsMatch(u, s) && StampsOrdered(u, s) && ev.Deliver? && Possible(u, s, ev) && s' == NextSystem(u, s, ev)
    requires IdsMatch(u, s')
    ensures StampsOrdered(u, s')
  {
    DeliverEffect(u, s, ev, s');
    BaseAhead(u, s, ev.now, ev.seed);
    var base := Base(Seeded(s.cursor, ev.seed), ev.now);
    if ev.result.Failed? {
      CursorAdvances(u, s, s', base);
    } else {
      DeliveredStamps(u, s, ev.first, ev.end, base, s');
    }
  }

  /** Every event keeps the stamps in order, unless it resumes a message out of order. */
  lemma EventKeepsStamps(u: Setup, s: System, ev: Event)
    requires u.Valid() && IdsMatch(u, s) && StampsOrdered(u, s) && Possible(u, s, ev) && (ev.Other? ==> StampsFit(u, s, ev.op))
    ensures IdsMatch(u, NextSystem(u, s, ev)) && StampsOrdered(u, NextSystem(u, s, ev))
  {
    var s' := NextSystem(u, s, ev);
    EventKeepsIds(u, s, ev);
    match ev
    case Deliver(_, _, _, _, _) => DeliverKeepsStamps(u, s, ev, s');
    case Restart =>
      assert forall o: nat :: Enqueuable(u, s', o) <==> Enqueuable(u, s, o);
    case Dequeued(d) => StampsKept(u, s, d.Update(), s');
    case Other(op) => StampsKept(u, s, op, s');
  }

  lemma EventKeepsPlaces(u: Setup, s: System, ev: Event, s': System)
    requires u.Valid() && Ok(u, s) && Possible(u, s, ev) && Undisturbed(u, s, ev) && s' == NextSystem(u, s, ev) && IdsMatch(u, s')
    ensures AllInPlace(u, s')
  {
    match ev
    case Deliver(a, b, now, seed, result) =>
      DeliverEffect(u, s, ev, s');
      if result.Failed? {
        assert forall o: nat :: Enqueuable(u, s', o) <==> Enqueuable(u, s, o);
      } else {
        DeliveredInPlace(u, s, a, b, Base(Seeded(s.cursor, seed), now), s');
      }
    case Restart =>
      assert forall o: nat :: Enqueuable(u, s', o) <==> Enqueuable(u, s, o);
    case Dequeued(d) =>
      DequeuedFits(u, s, d);
      PlacesKept(u, s, d.Update(), s');
    case Other(op) => PlacesKept(u, s, op, s');
  }

  lemma EventKeeps(u: Setup, s: System, ev: Event)
    requires u.Valid() && Ok(u, s) && Possible(u, s, ev) && Undisturbed(u, s, ev)
    ensures Ok(u, NextSystem(u, s, ev))
  {
    EventKeepsStamps(u, s, ev);
    EventKeepsPlaces(u, s, ev, NextSystem(u, s, ev));
  }

  lemma {:induction false} RunKeeps(u: Setup, s: System, evs: seq<Event>)
    requires u.Valid() && Ok(u, s) && History(u, s, evs) && AllUndisturbed(u, s, evs)
    ensures Ok(u, Run(u, s, evs))
    decreases |evs|
  {
    if |evs| > 0 {
      EventKeeps(u, s, evs[0]);
      RunKeeps(u, NextSystem(u, s, evs[0]), evs[1..]);
    }
  }

  predicate OnlyDeliveries(evs: seq<Event>) {
    forall i | 0 <= i < |evs| :: evs[i].Deliver?
  }

  /** Deliveries disturb nothing. */
  lemma {:induction false} DeliveriesDisturbNothing(u: Setup, s: System, evs: seq<Event>)
    requires History(u, s, evs) && OnlyDeliveries(evs)
    ensures AllUndisturbed(u, s, evs)
    decreases |evs|
  {
    if |evs| > 0 {
      assert evs[0].Deliver?;
      DeliveriesDisturbNothing(u, NextSystem(u, s, evs[0]), evs[1..]);
    }
  }

  // ---------- Main results ----------

  /**
  Exactly once, in order, no gaps: whatever is redelivered, retried, crashed, left unacknowledged, resumed, reprioritized or
  dequeued, the workflow rows of the partition are those of the messages before some frontier that were not dropped, one
  each, and every resolved offset lies before it.
  */
  lemma NoMessageLostOrDuplicated(u: Setup, s: System, evs: seq<Event>)
    requires u.Valid() && Empty(s) && History(u, s, evs)
    ensures var e := Run(u, s, evs);
            && e.resolved <= e.frontier
            && (forall o: nat | !u.poison(o) :: u.Id(o) in e.t <==> o < e.frontier)
            && (forall id | id in e.t && e.t[id].partition == Some(u.key) :: exists o: nat :: o < e.frontier && !u.poison(o) && id == u.Id(o))
  {
    RunKeepsIds(u, s, evs);
    var e := Run(u, s, evs);
    forall o: nat | !u.poison(o) ensures u.Id(o) in e.t <==> o < e.frontier {
      assert o < e.frontier ==> Enqueuable(u, e, o);
    }
    forall id | id in e.t && e.t[id].partition == Some(u.key) ensures exists o: nat :: o < e.frontier && !u.poison(o) && id == u.Id(o) {
      var o: nat :| Enqueuable(u, e, o) && id == u.Id(o);
    }
  }

  lemma ClaimIsOldest(u: Setup, s: System, d: Dequeue, o: nat, p: nat)
    requires u.Valid() && Ok(u, s) && d.Legal(s.t) && d.queue == u.queue && d.partition == Some(u.key)
    requires p < o && Enqueuable(u, s, p) && Enqueuable(u, s, o) && u.Id(o) in d.claimed
    ensures !Active(s.t[u.Id(p)])
  {
    var eligible := EligibleIn(s.t, d.Target(), d.version, d.isLatest);
    ClaimsBounded(d, s.t);
    ClaimsArePrefix(d, s.t);
    var i :| 0 <= i < |d.claimed| && d.claimed[i] == u.Id(o);
    assert |d.claimed| == 1 && PendingIn(s.t, d.Target()) == {};
    assert u.Id(p) !in d.claimed && u.Id(p) !in PendingIn(s.t, d.Target());
    assert InPlace(u, s.t[u.Id(p)]) && InPlace(u, s.t[u.Id(o)]);
    assert Active(s.t[u.Id(p)]) ==> u.Id(p) in eligible;
  }

  /**
  Ordered processing: whenever the workflow of a message is dequeued, for the first time or after a recovery, the
  workflow of every earlier message that was not dropped exists and is neither ENQUEUED nor PENDING.
  */
  lemma StartsInOffsetOrder(u: Setup, s: System, evs: seq<Event>, d: Dequeue, o: nat, p: nat)
    requires u.Valid() && Empty(s) && History(u, s, evs) && AllUndisturbed(u, s, evs)
    requires d.Legal(Run(u, s, evs).t) && d.queue == u.queue && d.partition == Some(u.key)
    requires u.Id(o) in d.claimed && p < o && !u.poison(p) && !u.poison(o)
    ensures var e := Run(u, s, evs); u.Id(p) in e.t && !Active(e.t[u.Id(p)])
  {
    RunKeeps(u, s, evs);
    var e := Run(u, s, evs);
    ClaimsBounded(d, e.t);
    assert u.Id(o) in Ids(d.claimed);
    assert u.Id(o) in e.t;
    assert Enqueuable(u, e, o) && Enqueuable(u, e, p);
    ClaimIsOldest(u, e, d, o, p);
  }

  // The message itself is not resumed.
  predicate NotResumed(evs: seq<Event>, id: string) {
    forall i | 0 <= i < |evs| && evs[i].Other? && evs[i].op.Resume? :: id !in evs[i].op.ids
  }

  /** ... and it never becomes active again, whatever happens to it but a resume. */
  lemma {:induction false} SettledForever(u: Setup, s: System, evs: seq<Event>, p: nat)
    requires u.Valid() && IdsMatch(u, s) && History(u, s, evs) && NotResumed(evs, u.Id(p))
    requires Enqueuable(u, s, p) && !Active(s.t[u.Id(p)])
    ensures var e := Run(u, s, evs); u.Id(p) in e.t && !Active(e.t[u.Id(p)])
    decreases |evs|
  {
    if |evs| > 0 {
      EventKeepsIds(u, s, evs[0]);
      var s' := NextSystem(u, s, evs[0]);
      StillSettled(u, s, evs[0], p);
      SettledForever(u, s', evs[1..], p);
    }
  }

  lemma StillSettled(u: Setup, s: System, ev: Event, p: nat)
    requires u.Valid() && IdsMatch(u, s) && Possible(u, s, ev) && Enqueuable(u, s, p) && !Active(s.t[u.Id(p)])
    requires ev.Other? ==> !Resumes(ev.op, u.Id(p), s.t[u.Id(p)])
    ensures Enqueuable(u, NextSystem(u, s, ev), p)
    ensures u.Id(p) in NextSystem(u, s, ev).t && !Active(NextSystem(u, s, ev).t[u.Id(p)])
  {
    match ev
    case Other(op) => RowKept(op, u.Id(p), s.t[u.Id(p)]);
    case Dequeued(d) => RowKept(d.Update(), u.Id(p), s.t[u.Id(p)]);
    case _ =>
  }

  lemma Unfold(u: Setup, s: System, ev: Event, rest: seq<Event>)
    requires Possible(u, s, ev) && History(u, NextSystem(u, s, ev), rest)
    ensures History(u, s, [ev] + rest) && Run(u, s, [ev] + rest) == Run(u, NextSystem(u, s, ev), rest)
  {
    assert ([ev] + rest)[1..] == rest;
  }

  lemma {:induction false} Concat(u: Setup, s: System, evs: seq<Event>, more: seq<Event>)
    requires History(u, s, evs) && History(u, Run(u, s, evs), more)
    ensures History(u, s, evs + more) && Run(u, s, evs + more) == Run(u, Run(u, s, evs), more)
    decreases |evs|
  {
    if |evs| == 0 {
      assert evs + more == more;
    } else {
      Concat(u, NextSystem(u, s, evs[0]), evs[1..], more);
      assert (evs + more)[1..] == evs[1..] + more;
    }
  }
}
