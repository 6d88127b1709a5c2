/**
The receiver's batch handler, over the system database. Each of its enqueue attempts is a delivery in the sense of
`KafkaOrder`, so what is proved there of every history holds of what the handler does.
*/
module KafkaReceiver {
  import opened Common
  import opened WorkflowStatus
  import opened SystemDatabases
  import K = KafkaOrder

  // The workflows of messages [a, b), in order, without the ones that cannot be serialized.
  function PreparedBatch(u: K.Setup, a: nat, b: nat): seq<PreparedWorkflow>
    requires a <= b
    decreases b - a
  {
    if a == b then []
    else PreparedBatch(u, a, b - 1) + if u.poison(b - 1) then [] else [PreparedWorkflow(u.Id(b - 1), u.Prepared(b - 1, 0))]
  }

  lemma {:induction false} PreparedRows(u: K.Setup, a: nat, b: nat)
    requires a <= b
    ensures |PreparedBatch(u, a, b)| == K.Rank(u, a, b)
    ensures Batchable(PreparedBatch(u, a, b))
    ensures forall i | 0 <= i < |PreparedBatch(u, a, b)| :: PreparedBatch(u, a, b)[i].row.partition == Some(u.key)
    decreases b - a
  {
    if a < b {
      PreparedRows(u, a, b - 1);
    }
  }

  lemma {:induction false} AllOccur(keys: seq<Option<string>>, key: string, n: nat)
    requires n <= |keys| && forall i | 0 <= i < n :: keys[i] == Some(key)
    ensures Occurrences(keys, key, n) == n
  {
    if n > 0 {
      AllOccur(keys, key, n - 1);
    }
  }

  // base, base + 1, ...
  function Count(base: int, n: nat): (s: seq<int>)
    ensures |s| == n
  {
    if n == 0 then [] else Count(base, n - 1) + [base + n - 1]
  }

  lemma {:induction false} CountAt(base: int, n: nat, i: nat)
    requires i < n
    ensures Count(base, n)[i] == base + i
  {
    if i < n - 1 {
      CountAt(base, n - 1, i);
    }
  }

  lemma NotYetInBatch(u: K.Setup, a: nat, b: nat, base: int)
    requires u.Valid() && a <= b
    ensures u.Id(b) !in K.BatchRows(u, a, b, base)
  {
    if u.Id(b) in K.BatchRows(u, a, b, base) {
      var o := K.BatchOnly(u, a, b, base, u.Id(b));
    }
  }

  lemma TableGrows(rest: seq<PreparedWorkflow>, stamps: seq<int>, last: PreparedWorkflow, stamp: int)
    requires |rest| == |stamps| && last.id !in BatchTable(rest, stamps)
    ensures BatchTable(rest + [last], stamps + [stamp]) == BatchTable(rest, stamps)[last.id := Stamped(last.row, stamp)]
  {
    assert (rest + [last])[..|rest|] == rest && (stamps + [stamp])[..|rest|] == stamps;
  }

  // The rows that the database inserts for messages [a, b) stamped from `base` on.
  function StampedTable(u: K.Setup, a: nat, b: nat, base: int): Table
    requires a <= b
  {
    BatchTable(PreparedBatch(u, a, b), Count(base, |PreparedBatch(u, a, b)|))
  }

  predicate TableAgrees(u: K.Setup, a: nat, b: nat, base: int)
    requires a <= b
  {
    StampedTable(u, a, b, base) == K.BatchRows(u, a, b, base)
  }

  lemma TableStarts(u: K.Setup, a: nat, base: int)
    ensures TableAgrees(u, a, a, base)
  {
    assert PreparedBatch(u, a, a) == [];
  }

  /** The database's rows for a prepared batch are the machine's rows for the delivery. */
  lemma TableIsBatch(u: K.Setup, a: nat, b: nat, base: int)
    requires u.Valid() && a <= b
    ensures TableAgrees(u, a, b, base)
  {
    TableStarts(u, a, base);
    var o := a;
    while o != b
      invariant a <= o <= b && TableAgrees(u, a, o, base)
    {
      TableStep(u, a, o, base);
      o := o + 1;
    }
  }

  lemma TableStep(u: K.Setup, a: nat, b: nat, base: int)
    requires u.Valid() && a <= b && TableAgrees(u, a, b, base)
    ensures TableAgrees(u, a, b + 1, base)
  {
    if u.poison(b) {
      DroppedMessage(u, a, b, base);
    } else {
      AddedMessage(u, a, b, base);
      NotYetInBatch(u, a, b, base);
      TableGrows(PreparedBatch(u, a, b), Count(base, |PreparedBatch(u, a, b)|), PreparedWorkflow(u.Id(b), u.Prepared(b, 0)),
                 base + |PreparedBatch(u, a, b)|);
    }
  }

  lemma DroppedMessage(u: K.Setup, a: nat, b: nat, base: int)
    requires a <= b && u.poison(b)
    ensures PreparedBatch(u, a, b + 1) == PreparedBatch(u, a, b) && K.BatchRows(u, a, b + 1, base) == K.BatchRows(u, a, b, base)
  {
    assert PreparedBatch(u, a, b) + [] == PreparedBatch(u, a, b);
  }

  lemma AddedMessage(u: K.Setup, a: nat, b: nat, base: int)
    requires a <= b && !u.poison(b)
    ensures var n := |PreparedBatch(u, a, b)|;
            var last := PreparedWorkflow(u.Id(b), u.Prepared(b, 0));
            && PreparedBatch(u, a, b + 1) == PreparedBatch(u, a, b) + [last] && Count(base, n + 1) == Count(base, n) + [base + n]
            && K.BatchRows(u, a, b + 1, base) == K.BatchRows(u, a, b, base)[last.id := Stamped(last.row, base + n)]
  {
    PreparedRows(u, a, b);
  }

  lemma StampsConsecutive(u: K.Setup, a: nat, b: nat, t: Table, cursors: map<string, int>, now: int)
    requires a <= b
    ensures var keys := Keys(PreparedBatch(u, a, b));
            && StampsOf(t, cursors, now, keys) == Count(BaseOf(t, cursors, now, u.key), |PreparedBatch(u, a, b)|)
            && Occurrences(keys, u.key, |keys|) == K.Rank(u, a, b)
  {
    PreparedRows(u, a, b);
    var keys := Keys(PreparedBatch(u, a, b));
    forall i | 0 <= i < |keys| ensures StampOf(t, cursors, now, keys, i) == Count(BaseOf(t, cursors, now, u.key), |keys|)[i] {
      AllOccur(keys, u.key, i);
      CountAt(BaseOf(t, cursors, now, u.key), |keys|, i);
    }
    AllOccur(keys, u.key, |keys|);
  }

  ghost predicate Matches(rows: Table, cursors: map<string, int>, u: K.Setup, s: K.System) {
    rows == s.t && Lookup(cursors, u.key) == s.cursor
  }

  // The delivery that an enqueue attempt is.
  ghost function Delivery(u: K.Setup, s: K.System, a: nat, b: nat, now: int, fate: K.Result): K.Event {
    K.Deliver(a, b, now, Top(K.ActiveStamps(s.t, u.key)), fate)
  }

  lemma AttemptRows(u: K.Setup, a: nat, b: nat, t: Table, cursors: map<string, int>, now: int)
    requires u.Valid() && a <= b
    ensures var batch := PreparedBatch(u, a, b);
            BatchTable(batch, StampsOf(t, cursors, now, Keys(batch))) == K.BatchRows(u, a, b, BaseOf(t, cursors, now, u.key))
  {
    StampsConsecutive(u, a, b, t, cursors, now);
    TableIsBatch(u, a, b, BaseOf(t, cursors, now, u.key));
  }

  lemma AttemptCursor(u: K.Setup, s: K.System, a: nat, b: nat, cursors: map<string, int>, now: int, base: int, cursors': map<string, int>)
    requires a <= b && base == BaseOf(s.t, cursors, now, u.key) && Lookup(cursors, u.key) == s.cursor
    requires Lookup(cursors', u.key) == CursorAfter(s.t, cursors, now, Keys(PreparedBatch(u, a, b)), u.key)
    ensures Lookup(cursors', u.key) == if K.Rank(u, a, b) == 0 then s.cursor else Some(base + K.Rank(u, a, b))
  {
    StampsConsecutive(u, a, b, s.t, cursors, now);
  }

  /** One enqueue attempt takes the database where the machine's delivery goes. */
  lemma AttemptDelivers(u: K.Setup, s: K.System, a: nat, b: nat, now: int, fate: K.Result, cursors: map<string, int>,
                        inserted: Table, rows': Table, cursors': map<string, int>)
    requires u.Valid() && Lookup(cursors, u.key) == s.cursor && a <= b && a <= s.resolved
    requires inserted == BatchTable(PreparedBatch(u, a, b), StampsOf(s.t, cursors, now, Keys(PreparedBatch(u, a, b))))
    requires Lookup(cursors', u.key) == CursorAfter(s.t, cursors, now, Keys(PreparedBatch(u, a, b)), u.key)
    requires rows' == if fate.Failed? then s.t else Next(s.t, EnqueueMany(inserted))
    ensures K.Possible(u, s, Delivery(u, s, a, b, now, fate))
    ensures Matches(rows', cursors', u, K.NextSystem(u, s, Delivery(u, s, a, b, now, fate)))
  {
    var base := BaseOf(s.t, cursors, now, u.key);
    AttemptRows(u, a, b, s.t, cursors, now);
    AttemptCursor(u, s, a, b, cursors, now, base, cursors');
    DeliveryPossible(u, s, a, b, now, fate);
    DeliveryMatches(u, s, a, b, now, fate, base, inserted, rows', cursors');
  }

  lemma DeliveryPossible(u: K.Setup, s: K.System, a: nat, b: nat, now: int, fate: K.Result)
    requires a <= b && a <= s.resolved
    ensures K.Possible(u, s, Delivery(u, s, a, b, now, fate))
  {
  }

  lemma DeliveryMatches(u: K.Setup, s: K.System, a: nat, b: nat, now: int, fate: K.Result, base: int, inserted: Table, rows': Table,
                        cursors': map<string, int>)
    requires a <= b && inserted == K.BatchRows(u, a, b, base) && base == K.Base(K.Seeded(s.cursor, Top(K.ActiveStamps(s.t, u.key))), now)
    requires rows' == if fate.Failed? then s.t else Next(s.t, EnqueueMany(inserted))
    requires Lookup(cursors', u.key) == if K.Rank(u, a, b) == 0 then s.cursor else Some(base + K.Rank(u, a, b))
    ensures Matches(rows', cursors', u, K.NextSystem(u, s, Delivery(u, s, a, b, now, fate)))
  {
    DeliveryEffect(u, s, a, b, now, fate, base);
  }

  lemma DeliveryEffect(u: K.Setup, s: K.System, a: nat, b: nat, now: int, fate: K.Result, base: int)
    requires a <= b && base == K.Base(K.Seeded(s.cursor, Top(K.ActiveStamps(s.t, u.key))), now)
    ensures var s' := K.NextSystem(u, s, Delivery(u, s, a, b, now, fate));
            && s'.t == (if fate.Failed? then s.t else Next(s.t, EnqueueMany(K.BatchRows(u, a, b, base))))
            && s'.cursor == (if K.Rank(u, a, b) == 0 then s.cursor else Some(base + K.Rank(u, a, b)))
  {
  }

  lemma Append(u: K.Setup, s: K.System, evs: seq<K.Event>, ev: K.Event)
    requires K.History(u, s, evs) && K.Possible(u, K.Run(u, s, evs), ev)
    ensures K.History(u, s, evs + [ev]) && K.Run(u, s, evs + [ev]) == K.NextSystem(u, K.Run(u, s, evs), ev)
  {
    K.Unfold(u, K.Run(u, s, evs), ev, []);
    assert [ev] + [] == [ev];
    K.Concat(u, s, evs, [ev]);
  }

  // The deliveries so far, and one more attempt.
  lemma AttemptExtends(u: K.Setup, s: K.System, evs: seq<K.Event>, a: nat, b: nat, now: int, fate: K.Result, cursors: map<string, int>,
                       inserted: Table, rows': Table, cursors': map<string, int>)
    requires u.Valid() && K.OnlyDeliveries(evs) && K.History(u, s, evs) && a <= b && a <= K.Run(u, s, evs).resolved
    requires var e := K.Run(u, s, evs);
             && Lookup(cursors, u.key) == e.cursor
             && inserted == BatchTable(PreparedBatch(u, a, b), StampsOf(e.t, cursors, now, Keys(PreparedBatch(u, a, b))))
             && Lookup(cursors', u.key) == CursorAfter(e.t, cursors, now, Keys(PreparedBatch(u, a, b)), u.key)
             && rows' == if fate.Failed? then e.t else Next(e.t, EnqueueMany(inserted))
    ensures var e, evs' := K.Run(u, s, evs), evs + [Delivery(u, K.Run(u, s, evs), a, b, now, fate)];
            && K.OnlyDeliveries(evs') && K.History(u, s, evs') && Matches(rows', cursors', u, K.Run(u, s, evs'))
            && K.Run(u, s, evs').resolved == if fate.Durable? then K.Later(e.resolved, b) else e.resolved
  {
    var e := K.Run(u, s, evs);
    AttemptDelivers(u, e, a, b, now, fate, cursors, inserted, rows', cursors');
    Append(u, s, evs, Delivery(u, e, a, b, now, fate));
  }

  // One try of a transaction: when it stamps, and whether it commits and is acknowledged.
  datatype Attempt = Attempt(now: int, fate: K.Result)

  /** Tries until an attempt is acknowledged; when the attempts run out, the receiver has been told to stop. */
  method RetryUntilSuccess(db: SystemDatabase, u: K.Setup, a: nat, b: nat, prepared: seq<PreparedWorkflow>, attempts: seq<Attempt>,
                           ghost s: K.System)
    returns (ok: bool, left: seq<Attempt>, ghost evs: seq<K.Event>)
    requires u.Valid() && a <= b && a <= s.resolved && prepared == PreparedBatch(u, a, b) && |prepared| > 0
    requires Matches(db.rows, db.cursors, u, s)
    modifies db
    ensures K.OnlyDeliveries(evs) && K.History(u, s, evs) && Matches(db.rows, db.cursors, u, K.Run(u, s, evs))
    ensures K.Run(u, s, evs).resolved == if ok then K.Later(s.resolved, b) else s.resolved
  {
    left, evs := attempts, [];
    PreparedRows(u, a, b);
    while |left| > 0
      invariant K.OnlyDeliveries(evs) && K.History(u, s, evs) && Matches(db.rows, db.cursors, u, K.Run(u, s, evs)) && K.Run(u, s, evs).resolved == s.resolved
    {
      var now, fate := left[0].now, left[0].fate;
      left := left[1..];
      ghost var cursors := db.cursors;
      var reply := db.EnqueueWorkflows(prepared, now, fate);
      ghost var e := K.Run(u, s, evs);
      AttemptExtends(u, s, evs, a, b, now, fate, cursors, BatchTable(prepared, StampsOf(e.t, cursors, now, Keys(prepared))), db.rows,
                     db.cursors);
      evs := evs + [Delivery(u, e, a, b, now, fate)];
      if reply.Inserts? {
        return true, left, evs;
      }
    }
    return false, left, evs;
  }

  /**
  Handles messages [first, end) of the partition in chunks. Whatever happens, its effect is that of a history of
  deliveries; it resolves the messages of acknowledged chunks and no others.
  */
  method EachBatch(db: SystemDatabase, u: K.Setup, first: nat, end: nat, batchSize: nat, attempts: seq<Attempt>, ghost s: K.System)
    returns (resolved: nat, ghost evs: seq<K.Event>)
    requires u.Valid() && first <= end && first <= s.resolved && batchSize > 0
    requires Matches(db.rows, db.cursors, u, s)
    modifies db
    ensures K.OnlyDeliveries(evs) && K.History(u, s, evs) && Matches(db.rows, db.cursors, u, K.Run(u, s, evs))
    ensures first <= resolved <= end && K.Run(u, s, evs).resolved == K.Later(s.resolved, resolved)
  {
    resolved, evs := first, [];
    var left := attempts;
    while resolved < end
      invariant first <= resolved <= end
      invariant K.OnlyDeliveries(evs) && K.History(u, s, evs) && Matches(db.rows, db.cursors, u, K.Run(u, s, evs))
      invariant K.Run(u, s, evs).resolved == K.Later(s.resolved, resolved)
    {
      var next := if resolved + batchSize < end then resolved + batchSize else end;
      var prepared := PrepareChunk(u, resolved, next);
      ghost var e := K.Run(u, s, evs);
      if |prepared| > 0 {
        var ok;
        ghost var more;
        ok, left, more := RetryUntilSuccess(db, u, resolved, next, prepared, left, e);
        K.Concat(u, s, evs, more);
        evs := evs + more;
        if !ok {
          return;
        }
      } else {
        EmptyChunk(u, e, resolved, next);
        Append(u, s, evs, Delivery(u, e, resolved, next, 0, K.Durable));
        evs := evs + [Delivery(u, e, resolved, next, 0, K.Durable)];
      }
      resolved := next;
    }
  }

  method PrepareChunk(u: K.Setup, a: nat, b: nat) returns (prepared: seq<PreparedWorkflow>)
    requires a <= b
    ensures prepared == PreparedBatch(u, a, b)
  {
    prepared := [];
    for o := a to b
      invariant prepared == PreparedBatch(u, a, o)
    {
      if !u.poison(o) {
        prepared := prepared + [PreparedWorkflow(u.Id(o), u.Prepared(o, 0))];
      }
    }
  }

  // A chunk with nothing to enqueue only moves the resolved offset.
  lemma EmptyChunk(u: K.Setup, s: K.System, a: nat, b: nat)
    requires a <= b && a <= s.resolved && PreparedBatch(u, a, b) == []
    ensures K.Possible(u, s, Delivery(u, s, a, b, 0, K.Durable))
    ensures var s' := K.NextSystem(u, s, Delivery(u, s, a, b, 0, K.Durable));
            s'.t == s.t && s'.cursor == s.cursor && s'.resolved == K.Later(s.resolved, b)
  {
    PreparedRows(u, a, b);
    var base := K.Base(K.Seeded(s.cursor, Top(K.ActiveStamps(s.t, u.key))), 0);
    EmptyBatch(u, a, b, base);
    EnqueueMerges(s.t, map[]);
  }

  lemma {:induction false} EmptyBatch(u: K.Setup, a: nat, b: nat, base: int)
    requires a <= b && K.Rank(u, a, b) == 0
    ensures K.BatchRows(u, a, b, base) == map[]
    decreases b - a
  {
    if a < b {
      EmptyBatch(u, a, b - 1, base);
    }
  }
}
