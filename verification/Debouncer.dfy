/** The debouncer's retry loop over the system database, with other callers' operations in between. */
module Debouncers {
  import opened Common
  import opened WorkflowStatus
  import opened StatusMachine
  import opened Debouncing
  import opened SystemDatabases
  import Ownership

  datatype DebounceReply =
    | Handle(id: string)        // the workflow that will run with these inputs
    | Existing(id: string)      // the given workflow ID was in use already
    | KeyConflict               // somebody who is not a debounce of this workflow holds the key
    | Failed
    | Stopped                   // still contended when the turns ran out

  // One iteration: the clock, the ID to start under, and what others do before it, between the update and the lookup of
  // its first transaction (which read one committed state each), and between its two transactions.
  datatype Turn = Turn(now: int, id: string, before: seq<Op>, within: seq<Op>, between: seq<Op>)

  predicate Unused(xid: string, op: Op) {
    op.Init? ==> op.ownerXid != Some(xid)
  }

  predicate Fair(xid: string, turn: Turn) {
    && Trace(turn.before) && Trace(turn.within) && Trace(turn.between)
    && (forall i | 0 <= i < |turn.before| :: Unused(xid, turn.before[i]))
    && (forall i | 0 <= i < |turn.within| :: Unused(xid, turn.within[i]))
    && (forall i | 0 <= i < |turn.between| :: Unused(xid, turn.between[i]))
  }

  predicate NotOwner(t: Table, xid: string) {
    forall id | id in t :: t[id].ownerXid != Some(xid)
  }

  lemma StepNotOwner(t: Table, op: Op, xid: string)
    requires NotOwner(t, xid) && Enabled(op) && Unused(xid, op)
    ensures NotOwner(Next(t, op), xid)
  {
    forall id | id in Next(t, op) ensures Next(t, op)[id].ownerXid != Some(xid) {
      if id in t {
        Ownership.OwnerRow(op, id, t[id]);
      }
    }
  }

  lemma {:induction false} OthersKeep(t: Table, ops: seq<Op>, xid: string)
    requires Inv(t) && NotOwner(t, xid) && Trace(ops) && forall i | 0 <= i < |ops| :: Unused(xid, ops[i])
    ensures Inv(Exec(t, ops)) && NotOwner(Exec(t, ops), xid)
    decreases |ops|
  {
    if |ops| > 0 {
      assert Enabled(ops[0]) && Unused(xid, ops[0]);
      StepKeeps(t, ops[0]);
      StepNotOwner(t, ops[0], xid);
      OthersKeep(Next(t, ops[0]), ops[1..], xid);
    }
  }

  // The row waits under the key with these inputs, no later than a period from now.
  predicate Pends(row: Row, r: Request, now: int)
    requires r.queue.Some? && r.dedupId.Some? && r.delayMS.Some?
  {
    && HoldsSlot(row, r.queue.value, r.dedupId.value) && row.status.Delayed? && row.isDebounced && row.inputs == r.inputs
    && row.name == r.name && row.className == r.className
    && row.delayUntil.Some? && row.delayUntil.value <= now + r.delayMS.value
  }

  function BounceOf(r: Request, now: int): Bounce
    requires r.queue.Some? && r.dedupId.Some? && r.delayMS.Some?
  {
    Bounce(r.name, r.className, r.queue.value, r.dedupId.value, now + r.delayMS.value, r.inputs)
  }

  lemma BouncedPends(b: Bounce, id: string, row: Row, r: Request, now: int)
    requires r.queue.Some? && r.dedupId.Some? && r.delayMS.Some? && b == BounceOf(r, now) && BounceMatches(b, row)
    ensures Pends(NextRow(Debounce(b), id, row), r, now)
  {
  }

  // What the lookup reports of the state it reads.
  predicate IsLookup(t: Table, b: Bounce, result: DebounceResult) {
    match result
    case Bounced(_) => false
    case Unheld => KeyFree(t, b)
    case Held(id, d, n, c) =>
      id in t && HoldsSlot(t[id], b.queue, b.dedupId) && d == t[id].isDebounced && n == t[id].name && c == t[id].className
  }

  /**
  What the caller does after a lookup says who holds the key at that time. A retry means that a debounce of the same
  workflow has taken the key since the update, and is what the next bounce will extend.
  */
  lemma LookupDecides(t: Table, b: Bounce, result: DebounceResult)
    requires Inv(t) && IsLookup(t, b, result)
    ensures ClassifyBounce(result, b.name, b.className) != ReturnHandle
    ensures ClassifyBounce(result, b.name, b.className) == EnqueueFresh <==> KeyFree(t, b)
    ensures ClassifyBounce(result, b.name, b.className) == Raise <==> KeyTaken(t, b)
    ensures ClassifyBounce(result, b.name, b.className) == RetryBounce <==> Extendable(t, b)
  {
    forall id | id in t && HoldsSlot(t[id], b.queue, b.dedupId) ensures BounceMatches(b, t[id]) <==> !ForeignHolder(t[id], b) {
      assert RowOk(t[id]);
    }
    if result.Held? {
      forall j | j in t && HoldsSlot(t[j], b.queue, b.dedupId) ensures j == result.id {
      }
      assert BounceMatches(b, t[result.id]) || ForeignHolder(t[result.id], b);
    }
  }

  /**
  The extension, and the lookup if nothing was extended. Other callers may commit in between: `within`. With none of
  those, no retry is asked for, as `RetryImpossible` says.
  */
  method DebounceDelayedWorkflow(db: SystemDatabase, b: Bounce, within: seq<Op>) returns (result: DebounceResult)
    modifies db`rows
    ensures result.Bounced? <==> Extendable(old(db.rows), b)
    ensures result.Bounced? ==> result.id in old(db.rows) && BounceMatches(b, old(db.rows)[result.id])
                                && db.rows == Next(old(db.rows), Debounce(b))
    ensures !result.Bounced? ==> db.rows == Exec(Next(old(db.rows), Debounce(b)), within) && IsLookup(db.rows, b, result)
  {
    var rows := db.rows;
    var matching := set id | id in rows && BounceMatches(b, rows[id]);
    assert forall id | id in rows :: BounceMatches(b, rows[id]) <==> id in matching;
    db.rows := Next(rows, Debounce(b));
    if matching != {} {
      var id :| id in matching;
      return Bounced(id);
    }
    db.rows := Exec(db.rows, within);
    result := LookUpHolder(db.rows, b);
  }

  method LookUpHolder(rows: Table, b: Bounce) returns (result: DebounceResult)
    ensures IsLookup(rows, b, result)
  {
    var holders := set id | id in rows && HoldsSlot(rows[id], b.queue, b.dedupId);
    assert forall id | id in rows :: HoldsSlot(rows[id], b.queue, b.dedupId) <==> id in holders;
    if holders == {} {
      return Unheld;
    }
    var id :| id in holders;
    result := Held(id, rows[id].isDebounced, rows[id].name, rows[id].className);
  }

  lemma FreshPends(r: Request, executor: string, now: int, deadline: Option<int>, xid: string)
    requires r.queue.Some? && r.dedupId.Some? && r.delayMS.Some? && r.delayMS.value > 0
    ensures Pends(BuildRow(r, executor, now, Some(deadline)).(ownerXid := Some(xid)), r, now)
  {
  }

  /**
  Extends the workflow that waits under the key, or starts one. When a handle comes back, its workflow waits under
  the key with the inputs of this call; an error means that another kind of workflow holds the key.
  */
  method DebounceCall(db: SystemDatabase, r: Request, timeoutMS: Option<int>, executor: string, xid: string, turns: seq<Turn>)
    returns (reply: DebounceReply, last: int)
    requires r.queue.Some? && r.dedupId.Some? && r.delayMS.Some? && r.delayMS.value > 0
    requires Inv(db.rows) && NotOwner(db.rows, xid) && forall i | 0 <= i < |turns| :: Fair(xid, turns[i])
    modifies db`rows
    ensures Inv(db.rows)
    ensures reply.Handle? ==> reply.id in db.rows && Pends(db.rows[reply.id], r, last)
    ensures reply.KeyConflict? ==> KeyTaken(db.rows, BounceOf(r, last))
  {
    last := 0;
    for k := 0 to |turns|
      invariant Inv(db.rows) && NotOwner(db.rows, xid)
    {
      var turn := turns[k];
      last := turn.now;
      OthersKeep(db.rows, turn.before, xid);
      db.rows := Exec(db.rows, turn.before);
      var b := BounceOf(r, turn.now);
      ghost var t := db.rows;
      var result := DebounceDelayedWorkflow(db, b, turn.within);
      StepKeeps(t, Debounce(b));
      StepNotOwner(t, Debounce(b), xid);
      OthersKeep(Next(t, Debounce(b)), turn.within, xid);
      if !result.Bounced? {
        LookupDecides(db.rows, b, result);
      }
      match ClassifyBounce(result, r.name, r.className)
      case ReturnHandle =>
        BouncedPends(b, result.id, t[result.id], r, turn.now);
        return Handle(result.id), last;
      case Raise => return KeyConflict, last;
      case RetryBounce =>
      case EnqueueFresh =>
        OthersKeep(db.rows, turn.between, xid);
        db.rows := Exec(db.rows, turn.between);
        var deadline := if timeoutMS.Some? then Some(turn.now + timeoutMS.value) else None;
        var row := BuildRow(r, executor, turn.now, Some(deadline));
        t := db.rows;
        var started := StartFresh(db, turn.id, row, xid);
        FreshPends(r, executor, turn.now, deadline, xid);
        match started
        case Execute(_, _) => return Handle(turn.id), last;
        case Known(_, _) => return Existing(turn.id), last;
        case Duplicated =>
        case _ => return Failed, last;
    }
    return Stopped, last;
  }

  // A start under an owner that no row has: it executes only if it inserted its row.
  method StartFresh(db: SystemDatabase, id: string, row: Row, xid: string) returns (reply: InitReply)
    requires Inv(db.rows) && NotOwner(db.rows, xid) && NewRow(row) && row.ownerXid.None?
    modifies db`rows
    ensures Inv(db.rows)
    ensures reply.Execute? ==> id in db.rows && db.rows[id] == row.(ownerXid := Some(xid))
    ensures !reply.Execute? ==> db.rows == old(db.rows)
  {
    ghost var op := Init(id, row, Some(xid), false, false, 0);
    StepKeeps(db.rows, op);
    if id in db.rows {
      Ownership.InitReplaces(db.rows, op);
    } else {
      InitNew(db.rows, op);
    }
    reply := db.InitWorkflowStatus(id, row, Some(xid), false, false, 0);
  }
}
