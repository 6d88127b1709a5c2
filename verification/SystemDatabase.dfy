/**
The system database as an object: the `workflow_status` table and this process's cursors for batch stamps.

Each method is one call of the TypeScript class, with what comes from outside (the clock, the rows that a SELECT returned,
whether a commit was acknowledged) as a parameter. Its result is tied to the operations on tables whose properties
the other modules prove.
*/
module SystemDatabases {
  import opened Common
  import opened WorkflowStatus
  import opened StatusMachine
  import opened QueueDispatch
  import opened Debouncing
  import opened KafkaOrder
  import Ownership

  // ---------- Descendants ----------

  predicate IsChild(t: Table, parent: string, id: string) {
    id in t && t[id].parent == Some(parent)
  }

  // A chain of parents from one of the roots down to the last element.
  predicate IsLine(t: Table, roots: set<string>, line: seq<string>) {
    |line| > 0 && line[0] in roots && forall i | 0 <= i < |line| - 1 :: IsChild(t, line[i], line[i + 1])
  }

  ghost predicate Descends(t: Table, roots: set<string>, id: string) {
    exists line :: IsLine(t, roots, line) && line[|line| - 1] == id
  }

  ghost function Family(t: Table, roots: set<string>): set<string> {
    set id | id in t && Descends(t, roots, id)
  }

  lemma ChildDescends(t: Table, roots: set<string>, parent: string, id: string)
    requires Descends(t, roots, parent) && IsChild(t, parent, id)
    ensures Descends(t, roots, id)
  {
    var line :| IsLine(t, roots, line) && line[|line| - 1] == parent;
    assert IsLine(t, roots, line + [id]) && (line + [id])[|line|] == id;
  }

  lemma {:induction false} LineStaysInside(t: Table, roots: set<string>, inside: set<string>, line: seq<string>)
    requires roots <= inside && (forall p, c | p in inside && IsChild(t, p, c) :: c in inside)
    requires IsLine(t, roots, line)
    ensures line[|line| - 1] in inside
    decreases |line|
  {
    if |line| > 1 {
      LineStaysInside(t, roots, inside, line[..|line| - 1]);
      assert IsChild(t, line[|line| - 2], line[|line| - 1]);
    }
  }

  // Cancelling twice is cancelling the union; who is whose child does not change.
  lemma CancelTwice(t: Table, a: set<string>, b: set<string>)
    ensures Next(Next(t, Cancel(a)), Cancel(b)) == Next(t, Cancel(a + b))
  {
    var t2, t3 := Next(Next(t, Cancel(a)), Cancel(b)), Next(t, Cancel(a + b));
    forall id | id in t ensures t2[id] == t3[id] {
      CancelRow(a, b, id, t[id]);
    }
  }

  lemma CancelRow(a: set<string>, b: set<string>, id: string, row: Row)
    ensures NextRow(Cancel(b), id, NextRow(Cancel(a), id, row)) == NextRow(Cancel(a + b), id, row)
  {
  }

  lemma CancelSame(t: Table, a: set<string>, b: set<string>)
    requires forall id | id in t :: id in a <==> id in b
    ensures Next(t, Cancel(a)) == Next(t, Cancel(b))
  {
    forall id | id in t ensures NextRow(Cancel(a), id, t[id]) == NextRow(Cancel(b), id, t[id]) {
    }
  }

  function DirectChildren(t: Table, parents: set<string>): set<string> {
    set id | id in t && t[id].parent.Some? && t[id].parent.value in parents
  }

  lemma ChildrenOf(t: Table, t': Table, roots: set<string>, level: set<string>)
    requires t'.Keys == t.Keys && forall id | id in t :: t'[id].parent == t[id].parent
    requires forall p | p in level :: Descends(t, roots, p)
    ensures DirectChildren(t', level) <= t.Keys
    ensures forall c | c in DirectChildren(t', level) :: Descends(t, roots, c)
    ensures forall p, c | p in level && IsChild(t, p, c) :: c in DirectChildren(t', level)
  {
    forall c | c in DirectChildren(t', level) ensures Descends(t, roots, c) {
      ChildDescends(t, roots, t[c].parent.value, c);
    }
  }

  lemma ParentsStay(t: Table, ids: set<string>)
    ensures var t' := Next(t, Cancel(ids)); t'.Keys == t.Keys && forall id | id in t :: t'[id].parent == t[id].parent
  {
  }

  // Part of the way down: all levels but the last are cancelled, and their children have been visited.
  ghost predicate Sweeping(t: Table, roots: set<string>, visited: set<string>, frontier: set<string>, rows: Table) {
    && frontier <= visited && roots <= visited && rows == Next(t, Cancel(visited - frontier))
    && (forall id | id in visited :: Descends(t, roots, id))
    && (forall p, c | p in visited - frontier && IsChild(t, p, c) :: c in visited)
  }

  lemma SweepStarts(t: Table, roots: set<string>)
    ensures Sweeping(t, roots, roots, roots, t)
  {
    forall id | id in roots ensures Descends(t, roots, id) {
      assert IsLine(t, roots, [id]) && [id][|[id]| - 1] == id;
    }
    CancelNone(t, roots - roots);
  }

  lemma CancelNone(t: Table, ids: set<string>)
    requires ids == {}
    ensures Next(t, Cancel(ids)) == t
  {
  }

  lemma SweepLevel(t: Table, roots: set<string>, visited: set<string>, frontier: set<string>, rows: Table)
    requires Sweeping(t, roots, visited, frontier, rows)
    ensures var rows' := Next(rows, Cancel(frontier));
            var level := DirectChildren(rows', frontier) - visited;
            Sweeping(t, roots, visited + level, level, rows') && level <= t.Keys
  {
    var rows' := Next(rows, Cancel(frontier));
    var level := DirectChildren(rows', frontier) - visited;
    CancelTwice(t, visited - frontier, frontier);
    assert visited - frontier + frontier == visited == visited + level - level;
    ParentsStay(t, visited);
    ChildrenOf(t, rows', roots, frontier);
  }

  lemma SweepDone(t: Table, roots: set<string>, visited: set<string>, rows: Table)
    requires Sweeping(t, roots, visited, {}, rows)
    ensures rows == Next(t, Cancel(Family(t, roots)))
  {
    forall id | Descends(t, roots, id) ensures id in visited {
      var line :| IsLine(t, roots, line) && line[|line| - 1] == id;
      LineStaysInside(t, roots, visited, line);
    }
    CancelSame(t, visited - {}, Family(t, roots));
  }

  // ---------- Batch stamps ----------

  // How many of the first n entries carry the key.
  function Occurrences(keys: seq<Option<string>>, key: string, n: nat): nat
    requires n <= |keys|
  {
    if n == 0 then 0 else Occurrences(keys, key, n - 1) + if keys[n - 1] == Some(key) then 1 else 0
  }

  function Lookup(cursors: map<string, int>, key: string): Option<int> {
    if key in cursors then Some(cursors[key]) else None
  }

  lemma Pick<T>(s: set<T>) returns (x: T)
    requires s != {}
    ensures x in s
  {
    x :| x in s;
  }

  lemma Inhabited(s: set<int>)
    requires s != {}
    ensures exists x :: x in s
  {
    var x := Pick(s);
  }

  ghost function Top(s: set<int>): (m: Option<int>)
    ensures IsMaximum(s, m)
  {
    if s == {} then None
    else
      Inhabited(s);
      var x :| x in s;
      assert s == s - {x} + {x};
      var m := Top(s - {x});
      if m.Some? && x < m.value then m else Some(x)
  }

  // The stamp that the next row of the key is given.
  ghost function BaseOf(t: Table, cursors: map<string, int>, now: int, key: string): int {
    Base(Seeded(Lookup(cursors, key), Top(ActiveStamps(t, key))), now)
  }

  // Rows without a key get the clock; the rows of one key get consecutive stamps from its base on.
  ghost function StampOf(t: Table, cursors: map<string, int>, now: int, keys: seq<Option<string>>, i: nat): int
    requires i < |keys|
  {
    match keys[i]
    case None => now
    case Some(key) => BaseOf(t, cursors, now, key) + Occurrences(keys, key, i)
  }

  ghost function StampsOf(t: Table, cursors: map<string, int>, now: int, keys: seq<Option<string>>): seq<int> {
    seq(|keys|, i requires 0 <= i < |keys| => StampOf(t, cursors, now, keys, i))
  }

  // The cursor of every key that occurs moves past its rows; the others stay.
  ghost function CursorAfter(t: Table, cursors: map<string, int>, now: int, keys: seq<Option<string>>, key: string): Option<int> {
    var n := Occurrences(keys, key, |keys|);
    if n == 0 then Lookup(cursors, key) else Some(BaseOf(t, cursors, now, key) + n)
  }

  lemma {:induction false} Occurs(keys: seq<Option<string>>, key: string, i: nat, n: nat)
    requires i < n <= |keys| && keys[i] == Some(key)
    ensures Occurrences(keys, key, i) < Occurrences(keys, key, n)
    decreases n
  {
    if i < n - 1 {
      Occurs(keys, key, i, n - 1);
    }
  }

  lemma KeyOccurs(keys: seq<Option<string>>, key: string, batchKeys: set<string>)
    requires batchKeys == set i | 0 <= i < |keys| && keys[i].Some? :: keys[i].value
    ensures Occurrences(keys, key, |keys|) > 0 <==> key in batchKeys
  {
    if key in batchKeys {
      var i :| 0 <= i < |keys| && keys[i].Some? && keys[i].value == key;
      Occurs(keys, key, i, |keys|);
    } else {
      NeverOccurs(keys, key, |keys|);
    }
  }

  lemma {:induction false} NeverOccurs(keys: seq<Option<string>>, key: string, n: nat)
    requires n <= |keys| && forall i | 0 <= i < n :: keys[i] != Some(key)
    ensures Occurrences(keys, key, n) == 0
  {
    if n > 0 {
      NeverOccurs(keys, key, n - 1);
    }
  }

  // The stamp of entry i, once the cursors are seeded.
  function StampFrom(cursors: map<string, int>, now: int, keys: seq<Option<string>>, i: nat): int
    requires i < |keys|
  {
    match keys[i]
    case None => now
    case Some(key) => Base(Lookup(cursors, key), now) + Occurrences(keys, key, i)
  }

  // What the loop has handed out after i entries, for one key.
  predicate NextStamp(cursors: map<string, int>, now: int, keys: seq<Option<string>>, nextForKey: map<string, int>, i: nat, key: string)
    requires i <= |keys|
  {
    && (key in nextForKey <==> Occurrences(keys, key, i) > 0)
    && (key in nextForKey ==> nextForKey[key] == Base(Lookup(cursors, key), now) + Occurrences(keys, key, i))
  }

  /** The stamping loop: consecutive stamps per key from the later of the clock and the key's cursor. */
  method StampAll(keys: seq<Option<string>>, now: int, cursors: map<string, int>) returns (stamps: seq<int>, nextForKey: map<string, int>)
    ensures |stamps| == |keys|
    ensures forall i | 0 <= i < |keys| :: stamps[i] == StampFrom(cursors, now, keys, i)
    ensures forall key :: NextStamp(cursors, now, keys, nextForKey, |keys|, key)
  {
    stamps := [];
    nextForKey := map[];
    for i := 0 to |keys|
      invariant |stamps| == i && forall j | 0 <= j < i :: stamps[j] == StampFrom(cursors, now, keys, j)
      invariant forall key :: NextStamp(cursors, now, keys, nextForKey, i, key)
    {
      ghost var handedOut := nextForKey;
      match keys[i] {
        case None => stamps := stamps + [now];
        case Some(key) =>
          assert NextStamp(cursors, now, keys, nextForKey, i, key);
          var value := if key in nextForKey then nextForKey[key] else Base(Lookup(cursors, key), now);
          stamps := stamps + [value];
          nextForKey := nextForKey[key := value + 1];
      }
      ghost var n := i + 1;
      forall key ensures NextStamp(cursors, now, keys, nextForKey, n, key) {
        assert NextStamp(cursors, now, keys, handedOut, i, key);
      }
    }
  }

  ghost predicate IsSeeded(t: Table, cursors: map<string, int>, seeded: map<string, int>, key: string) {
    Lookup(seeded, key) == Seeded(Lookup(cursors, key), Top(ActiveStamps(t, key)))
  }

  lemma CursorMoves(t: Table, cursors: map<string, int>, seeded: map<string, int>, nextForKey: map<string, int>, now: int,
                    keys: seq<Option<string>>, key: string)
    requires NextStamp(seeded, now, keys, nextForKey, |keys|, key)
    requires key in nextForKey ==> IsSeeded(t, cursors, seeded, key)
    requires key !in nextForKey ==> Lookup(seeded, key) == Lookup(cursors, key)
    ensures Lookup(seeded + nextForKey, key) == CursorAfter(t, cursors, now, keys, key)
  {
  }

  // A prepared row as it is inserted with its stamp.
  function Stamped(row: Row, createdAt: int): Row {
    row.(createdAt := createdAt, attempts := 0, dedupId := None, ownerXid := None)
  }

  datatype PreparedWorkflow = PreparedWorkflow(id: string, row: Row)

  // The rows of a batch. Of two entries with one ID the first counts.
  function BatchTable(batch: seq<PreparedWorkflow>, stamps: seq<int>): Table
    requires |batch| == |stamps|
  {
    if |batch| == 0 then map[]
    else
      var n := |batch| - 1;
      var rest := BatchTable(batch[..n], stamps[..n]);
      if batch[n].id in rest then rest else rest[batch[n].id := Stamped(batch[n].row, stamps[n])]
  }

  function Keys(batch: seq<PreparedWorkflow>): seq<Option<string>> {
    seq(|batch|, i requires 0 <= i < |batch| => batch[i].row.partition)
  }

  predicate Batchable(batch: seq<PreparedWorkflow>) {
    forall i | 0 <= i < |batch| :: batch[i].row.status.Enqueued? && batch[i].row.dedupId.None?
  }

  datatype EnqueueReply = BadRequest | Lost | Inserts(ids: set<string>)

  // ON CONFLICT DO NOTHING: the rows that are there win.
  lemma EnqueueMerges(t: Table, rows: Table)
    ensures Next(t, EnqueueMany(rows)) == rows + t
  {
    Enqueues(t, rows);
  }

  lemma BatchGrows(t: Table, batch: seq<PreparedWorkflow>, stamps: seq<int>, i: nat)
    requires |stamps| == |batch| && i < |batch|
    ensures var before, after := BatchTable(batch[..i], stamps[..i]) + t, BatchTable(batch[..i + 1], stamps[..i + 1]) + t;
            after == if batch[i].id in before then before else before[batch[i].id := Stamped(batch[i].row, stamps[i])]
  {
    assert batch[..i + 1][..i] == batch[..i] && stamps[..i + 1][..i] == stamps[..i];
  }

  /** The inserts of a batch, in order, each skipped if its ID is there. */
  method InsertAll(t: Table, batch: seq<PreparedWorkflow>, createdAts: seq<int>) returns (inserted: set<string>, rows: Table)
    requires |createdAts| == |batch|
    ensures rows == Next(t, EnqueueMany(BatchTable(batch, createdAts)))
    ensures inserted == rows.Keys - t.Keys
  {
    inserted, rows := {}, t;
    for i := 0 to |batch|
      invariant rows == BatchTable(batch[..i], createdAts[..i]) + t
      invariant inserted == rows.Keys - t.Keys
    {
      BatchGrows(t, batch, createdAts, i);
      if batch[i].id !in rows {
        rows := rows[batch[i].id := Stamped(batch[i].row, createdAts[i])];
        inserted := inserted + {batch[i].id};
      }
    }
    assert batch[..|batch|] == batch && createdAts[..|batch|] == createdAts;
    EnqueueMerges(t, BatchTable(batch, createdAts));
  }

  // ---------- Claims ----------

  function WithIds(op: Op, ids: set<string>): Op
    requires op.Claim?
  {
    Claim(ids, op.executor, op.version, op.startTime, op.dbNow, op.rateLimited)
  }

  lemma ClaimRow(a: Op, b: Op, id: string, row: Row)
    requires a.Claim? && b.Claim? && b == WithIds(a, b.ids)
    ensures (id in a.ids <==> id in b.ids) ==> NextRow(a, id, row) == NextRow(b, id, row)
    ensures id !in a.ids ==> NextRow(a, id, row) == row
  {
  }

  lemma ClaimNone(t: Table, op: Op)
    requires op.Claim? && op.ids == {}
    ensures Next(t, op) == t
  {
    forall id | id in t ensures Next(t, op)[id] == t[id] {
      ClaimRow(op, op, id, t[id]);
    }
  }

  // Claiming one more row is claiming the larger set.
  lemma ClaimOneMore(t: Table, a: Op, b: Op, id: string)
    requires a.Claim? && id in t && id !in a.ids && b == WithIds(a, a.ids + {id})
    ensures id in Next(t, a) && Next(t, a)[id] == t[id] && Next(t, b) == Next(t, a)[id := NextRow(b, id, t[id])]
  {
    ClaimRow(a, b, id, t[id]);
    var t1, t2 := Next(t, a)[id := NextRow(b, id, t[id])], Next(t, b);
    assert t1.Keys == t2.Keys == t.Keys;
    forall i | i in t ensures t1[i] == t2[i] {
      ClaimRow(a, b, i, t[i]);
    }
  }

  lemma SelectedRows(d: Dequeue, t: Table, selected: seq<string>)
    requires d.Selects(t, selected)
    ensures Distinct(selected) && forall i | 0 <= i < |selected| :: selected[i] in t && t[selected[i]].status.Enqueued?
  {
    forall i | 0 <= i < |selected| ensures selected[i] in EligibleIn(t, d.Target(), d.version, d.isLatest) {
      assert selected[i] in Ids(selected);
    }
  }

  lemma LegalClaims(d: Dequeue, t: Table, selected: seq<string>, claimed: seq<string>)
    requires !d.Refused(t) && d.Selects(t, selected) && claimed == selected[..d.Allowed(t, |selected|)]
    ensures d.(claimed := claimed).Legal(t)
  {
    var e := d.(claimed := claimed);
    assert e.Selects(t, selected) && !e.Refused(t) && e.Allowed(t, |selected|) == d.Allowed(t, |selected|);
  }

  ghost predicate Marked(t: Table, rows: Table, claimed: seq<string>, op: Op)
    requires op.Claim?
  {
    rows == Next(t, WithIds(op, Ids(claimed)))
  }

  lemma MarkOne(t: Table, rows: Table, claimed: seq<string>, op: Op, id: string)
    requires op.Claim? && op.ids == {id} && Marked(t, rows, claimed, op) && id in t && id !in claimed
    ensures id in rows && rows[id] == t[id] && Marked(t, rows[id := NextRow(op, id, rows[id])], claimed + [id], op)
  {
    assert Ids(claimed + [id]) == Ids(claimed) + {id};
    var a, b := WithIds(op, Ids(claimed)), WithIds(op, Ids(claimed + [id]));
    ClaimOneMore(t, a, b, id);
    ClaimRow(b, op, id, t[id]);
  }

  lemma NotEarlier(selected: seq<string>, i: nat)
    requires Distinct(selected) && i < |selected|
    ensures selected[i] !in selected[..i] && selected[..i + 1] == selected[..i] + [selected[i]]
  {
  }

  // How many of n rows the rate limit lets through.
  function Allowance(rate: Option<RateLimit>, recent: nat, n: nat): nat {
    if rate.Some? && rate.value.limitPerPeriod - recent < n then Minus(rate.value.limitPerPeriod, recent) else n
  }

  /** Marks the selected rows one by one, until the rate limit is used up. */
  method ClaimSelected(t: Table, selected: seq<string>, rate: Option<RateLimit>, recent: nat, op: Op)
    returns (claimed: seq<string>, rows: Table)
    requires op.Claim? && Distinct(selected)
    requires forall i | 0 <= i < |selected| :: selected[i] in t && t[selected[i]].status.Enqueued?
    ensures claimed == selected[..Allowance(rate, recent, |selected|)]
    ensures rows == Next(t, WithIds(op, Ids(claimed)))
  {
    claimed, rows := [], t;
    ClaimNone(t, WithIds(op, Ids(claimed)));
    var i := 0;
    while i < |selected| && !(rate.Some? && |claimed| + recent >= rate.value.limitPerPeriod)
      invariant 0 <= i <= |selected| && claimed == selected[..i]
      invariant i <= Allowance(rate, recent, |selected|)
      invariant Marked(t, rows, claimed, op)
    {
      var id := selected[i];
      NotEarlier(selected, i);
      MarkOne(t, rows, claimed, WithIds(op, {id}), id);
      if rows[id].status.Enqueued? {
        rows := rows[id := NextRow(WithIds(op, {id}), id, rows[id])];
        claimed := claimed + [id];
      }
      i := i + 1;
    }
  }

  // ---------- Starts ----------

  lemma InitNew(t: Table, op: Op)
    requires op.Init? && op.id !in t
    ensures Next(t, op) == if SlotTaken(t, op.row) then t else t[op.id := op.row.(ownerXid := op.ownerXid)]
  {
    forall id | id in t ensures Next(t, op)[id] == t[id] {
    }
  }

  class SystemDatabase {
    var rows: Table
    var cursors: map<string, int>

    /** The upsert, the checks on the row it returns, and the rollback unless the caller owns or recovers the workflow. */
    method InitWorkflowStatus(id: string, initial: Row, ownerXid: Option<string>, recovery: bool, dequeued: bool, maxRetries: nat)
      returns (reply: InitReply)
      requires initial.attempts <= 1
      modifies this`rows
      ensures rows == Next(old(rows), Init(id, initial, ownerXid, recovery, dequeued, maxRetries))
      ensures reply == Reply(old(rows), Init(id, initial, ownerXid, recovery, dequeued, maxRetries))
    {
      var before := rows;
      ghost var op := Init(id, initial, ownerXid, recovery, dequeued, maxRetries);
      if id in rows {
        Ownership.InitReplaces(rows, op);
        rows := rows[id := Upserted(rows[id], initial, recovery || dequeued)];
      } else if SlotTaken(rows, initial) {
        InitNew(rows, op);
        return Duplicated;
      } else {
        InitNew(rows, op);
        rows := rows[id := initial.(ownerXid := ownerXid)];
      }
      var row := rows[id];
      if !SameWorkflow(row, initial) {
        rows := before;
        return NameConflict;
      }
      if ownerXid != row.ownerXid && !recovery && !dequeued {
        rows := before;
        return if row.status.RetriesExceeded? then DeadLettered else Known(row.status, row.deadline);
      }
      if maxRetries > 0 && row.attempts > maxRetries + 1 {
        if row.status.Pending? {
          rows := rows[id := row.(status := RetriesExceeded, dedupId := None)];
        }
        return DeadLettered;
      }
      return Execute(row.status, row.deadline);
    }

    /** Cancels the workflows and, level by level, all their descendants that have not completed; nothing else. */
    method CancelWorkflows(roots: set<string>, cancelChildren: bool)
      modifies this`rows
      ensures rows == Next(old(rows), Cancel(if cancelChildren then Family(old(rows), roots) else roots))
    {
      if !cancelChildren {
        rows := Next(rows, Cancel(roots));
        return;
      }
      ghost var t := rows;
      var visited, frontier := roots, roots;
      SweepStarts(t, roots);
      while frontier != {}
        invariant Sweeping(t, roots, visited, frontier, rows)
        decreases t.Keys - visited, frontier
      {
        SweepLevel(t, roots, visited, frontier, rows);
        rows := Next(rows, Cancel(frontier));
        frontier := DirectChildren(rows, frontier) - visited;
        visited := visited + frontier;
      }
      SweepDone(t, roots, visited, rows);
    }

    // MAX(created_at) over the key's rows that are ENQUEUED or PENDING.
    method MaxPartitionKeyCreatedAt(key: string) returns (m: Option<int>)
      ensures IsMaximum(ActiveStamps(rows, key), m)
    {
      m := None;
      var left := ActiveStamps(rows, key);
      while left != {}
        invariant left <= ActiveStamps(rows, key)
        invariant IsMaximum(ActiveStamps(rows, key) - left, m)
      {
        var x :| x in left;
        assert ActiveStamps(rows, key) - (left - {x}) == ActiveStamps(rows, key) - left + {x};
        m := if m.None? || m.value < x then Some(x) else m;
        left := left - {x};
      }
      assert ActiveStamps(rows, key) - left == ActiveStamps(rows, key);
    }

    /** Stamps a batch, key by key above every active row of the key and every earlier batch of this process. */
    method AssignBatchCreatedAt(keys: seq<Option<string>>, now: int) returns (stamps: seq<int>)
      modifies this`cursors
      ensures |stamps| == |keys|
      ensures forall i | 0 <= i < |keys| :: stamps[i] == StampOf(rows, old(cursors), now, keys, i)
      ensures forall key :: Lookup(cursors, key) == CursorAfter(rows, old(cursors), now, keys, key)
    {
      var batchKeys := set i | 0 <= i < |keys| && keys[i].Some? :: keys[i].value;
      SeedCursors(batchKeys);
      var nextForKey;
      stamps, nextForKey := StampAll(keys, now, cursors);
      forall i | 0 <= i < |keys| ensures stamps[i] == StampOf(rows, old(cursors), now, keys, i) {
        assert keys[i].Some? ==> keys[i].value in batchKeys;
      }
      forall key ensures Lookup(cursors + nextForKey, key) == CursorAfter(rows, old(cursors), now, keys, key) {
        KeyOccurs(keys, key, batchKeys);
        assert NextStamp(cursors, now, keys, nextForKey, |keys|, key);
        CursorMoves(rows, old(cursors), cursors, nextForKey, now, keys, key);
      }
      cursors := cursors + nextForKey;
    }

    // On first sight of a key its cursor is set past the highest active stamp.
    method SeedCursors(keys: set<string>)
      modifies this`cursors
      ensures forall key | key in keys :: IsSeeded(rows, old(cursors), cursors, key)
      ensures forall key | key !in keys :: Lookup(cursors, key) == Lookup(old(cursors), key)
    {
      var unseen := keys - cursors.Keys;
      while unseen != {}
        invariant unseen <= keys - old(cursors).Keys
        invariant forall key | key in keys && key !in unseen :: IsSeeded(rows, old(cursors), cursors, key)
        invariant forall key | key !in keys || key in unseen :: Lookup(cursors, key) == Lookup(old(cursors), key)
      {
        var key :| key in unseen;
        var seed := MaxPartitionKeyCreatedAt(key);
        assert seed == Top(ActiveStamps(rows, key));
        if seed.Some? {
          cursors := cursors[key := Max(0, seed.value + 1)];
        }
        unseen := unseen - {key};
      }
    }

    /** One transaction that inserts the rows whose IDs are new. The cursors move even if the commit fails. */
    method EnqueueWorkflows(batch: seq<PreparedWorkflow>, now: int, fate: Result) returns (reply: EnqueueReply)
      modifies this
      ensures !Batchable(batch) ==> reply == BadRequest && rows == old(rows) && cursors == old(cursors)
      ensures batch == [] ==> reply == Inserts({}) && rows == old(rows) && cursors == old(cursors)
      ensures Batchable(batch) && batch != [] ==>
                && (forall key :: Lookup(cursors, key) == CursorAfter(old(rows), old(cursors), now, Keys(batch), key))
                && rows == (if fate.Failed? then old(rows)
                            else Next(old(rows), EnqueueMany(BatchTable(batch, StampsOf(old(rows), old(cursors), now, Keys(batch))))))
                && reply == (if fate.Durable? then Inserts(rows.Keys - old(rows).Keys) else Lost)
    {
      if |batch| == 0 {
        return Inserts({});
      }
      if !Batchable(batch) {
        return BadRequest;
      }
      var createdAts := AssignBatchCreatedAt(Keys(batch), now);
      assert createdAts == StampsOf(old(rows), old(cursors), now, Keys(batch));
      var inserted, after := InsertAll(rows, batch, createdAts);
      if !fate.Failed? {
        rows := after;
      }
      reply := if fate.Durable? then Inserts(inserted) else Lost;
    }

    /** One dequeue transaction. `selected` is what the ordered and limited SELECT returned. */
    method FindAndMarkStartableWorkflows(queue: Queue, partition: Option<string>, executor: string, version: string, isLatest: bool,
                                         localRunning: nat, now: int, dbNow: int, selected: seq<string>)
      returns (claimed: seq<string>)
      requires !Dequeue(queue, partition, executor, version, isLatest, localRunning, now, dbNow, []).Refused(rows) ==>
                 Dequeue(queue, partition, executor, version, isLatest, localRunning, now, dbNow, []).Selects(rows, selected)
      modifies this`rows
      ensures var d := Dequeue(queue, partition, executor, version, isLatest, localRunning, now, dbNow, claimed);
              d.Legal(old(rows)) && rows == Next(old(rows), d.Update())
    {
      ghost var d := Dequeue(queue, partition, executor, version, isLatest, localRunning, now, dbNow, []);
      claimed := [];
      ClaimNone(rows, d.Update());
      var scope, recent := Scope(queue.name, partition), 0;
      if queue.rateLimit.Some? {
        recent := |RecentIn(rows, scope, now - queue.rateLimit.value.periodMS)|;
      }
      if (queue.rateLimit.Some? && recent >= queue.rateLimit.value.limitPerPeriod)
         || MaxTasks(queue, localRunning, |PendingIn(rows, scope)|) == Some(0) {
        return;
      }
      SelectedRows(d, rows, selected);
      claimed, rows := ClaimSelected(rows, selected, queue.rateLimit, recent, Claim({}, executor, version, now, dbNow, queue.rateLimit.Some?));
      LegalClaims(d, old(rows), selected, claimed);
    }
  }
}
