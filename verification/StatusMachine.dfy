/** What every sequence of operations on the workflow status table keeps. */
module StatusMachine {
  import opened Common
  import opened WorkflowStatus

  // ---------- Deduplication slots ----------

  // A row that holds a deduplication ID has a queue and has not ended; a debounced one still waits for its delay.
  // The other columns fit the status too.
  predicate RowOk(row: Row) {
    && (row.dedupId.Some? ==> row.queue.Some? && (Waiting(row.status) || row.status.Pending?))
    && (row.dedupId.Some? && row.isDebounced ==> row.status.Delayed?)
    && (row.status.Delayed? ==> row.delayUntil.Some?)
    && (Waiting(row.status) ==> row.queue.Some? && row.startedAt.None?)
    && (row.status.Pending? && row.queue.Some? ==> row.startedAt.Some?)
    && (row.status.Cancelled? ==> row.queue.None? && row.startedAt.None?)
    && (Completed(row.status) ==> row.outcome.Some? && (row.status.Success? <==> row.outcome.value.Returned?))
  }

  predicate Unique(t: Table) {
    forall a, b | a in t && b in t && a != b ::
      !(t[a].queue.Some? && t[a].dedupId.Some? && t[a].queue == t[b].queue && t[a].dedupId == t[b].dedupId)
  }

  predicate Inv(t: Table) {
    (forall id | id in t :: RowOk(t[id])) && Unique(t)
  }

  // A row keeps its slot or gives it up; it never takes another one.
  predicate SlotKept(row: Row, row': Row) {
    row'.dedupId.Some? ==> row'.dedupId == row.dedupId && (row.queue.Some? ==> row'.queue == row.queue)
  }

  // What an operation must leave of a row.
  predicate Keeps(row: Row, row': Row) {
    RowOk(row') && SlotKept(row, row')
  }

  lemma StartKeepsRow(op: Op, id: string, row: Row)
    requires RowOk(row) && (op.Init? || op.EnqueueMany? || op.TakeOver?)
    ensures Keeps(row, NextRow(op, id, row))
  {
  }

  lemma DequeueKeepsRow(op: Op, id: string, row: Row)
    requires RowOk(row) && (op.Claim? || op.Recover?)
    ensures Keeps(row, NextRow(op, id, row))
  {
  }

  lemma WaitKeepsRow(op: Op, id: string, row: Row)
    requires RowOk(row) && (op.SetPriority? || op.SetDelay? || op.Debounce? || op.Transition?)
    ensures Keeps(row, NextRow(op, id, row))
  {
  }

  lemma EndKeepsRow(op: Op, id: string, row: Row)
    requires RowOk(row) && (op.RecordOutcome? || op.Cancel? || op.Resume?)
    ensures Keeps(row, NextRow(op, id, row))
  {
  }

  lemma RowKeeps(op: Op, id: string, row: Row)
    requires RowOk(row)
    ensures Keeps(row, NextRow(op, id, row))
  {
    if op.Init? || op.EnqueueMany? || op.TakeOver? {
      StartKeepsRow(op, id, row);
    } else if op.Claim? || op.Recover? {
      DequeueKeepsRow(op, id, row);
    } else if op.RecordOutcome? || op.Cancel? || op.Resume? {
      EndKeepsRow(op, id, row);
    } else {
      WaitKeepsRow(op, id, row);
    }
  }

  lemma StepKeeps(t: Table, op: Op)
    requires Inv(t) && Enabled(op)
    ensures Inv(Next(t, op))
  {
    var t' := Next(t, op);
    forall id | id in t ensures RowOk(t'[id]) {
      RowKeeps(op, id, t[id]);
    }
    forall a, b | a in t' && b in t' && a != b && t'[a].queue.Some? && t'[a].dedupId.Some?
      ensures !(t'[a].queue == t'[b].queue && t'[a].dedupId == t'[b].dedupId)
    {
      StaysUnique(t, op, a, b);
    }
  }

  lemma StaysUnique(t: Table, op: Op, a: string, b: string)
    requires Inv(t) && Enabled(op) && a != b && a in Next(t, op) && b in Next(t, op)
    requires Next(t, op)[a].queue.Some? && Next(t, op)[a].dedupId.Some?
    ensures !(Next(t, op)[a].queue == Next(t, op)[b].queue && Next(t, op)[a].dedupId == Next(t, op)[b].dedupId)
  {
    if a in t {
      KeptSlotWasTaken(t, op, a);
    }
    if b in t && Next(t, op)[b].dedupId.Some? {
      KeptSlotWasTaken(t, op, b);
    }
  }

  lemma KeptSlotWasTaken(t: Table, op: Op, id: string)
    requires Inv(t) && id in t && Next(t, op)[id].dedupId.Some?
    ensures t[id].queue.Some? && t[id].queue == Next(t, op)[id].queue
    ensures HoldsSlot(t[id], Next(t, op)[id].queue.value, Next(t, op)[id].dedupId.value)
  {
    assert RowOk(t[id]);
    RowKeeps(op, id, t[id]);
  }

  lemma {:induction false} ExecKeeps(t: Table, ops: seq<Op>)
    requires Inv(t) && Trace(ops)
    ensures Inv(Exec(t, ops))
    decreases |ops|
  {
    if |ops| > 0 {
      assert Enabled(ops[0]);
      StepKeeps(t, ops[0]);
      ExecKeeps(Next(t, ops[0]), ops[1..]);
    }
  }

  /**
  The slot invariant: after any operations, a row with a deduplication ID has a queue and is DELAYED, ENQUEUED
  or PENDING, and no two rows share a slot. `Next` writes recoveries and resumes without looking at the unique
  index, so in particular neither ever violates it.
  */
  lemma DedupSlots(ops: seq<Op>)
    requires Trace(ops)
    ensures var t := Exec(map[], ops);
            && Unique(t)
            && (forall id | id in t && t[id].dedupId.Some? ::
                  t[id].queue.Some? && (t[id].status.Delayed? || t[id].status.Enqueued? || t[id].status.Pending?))
  {
    ExecKeeps(map[], ops);
    var t := Exec(map[], ops);
    forall id | id in t ensures RowOk(t[id]) {
    }
  }

  /** A workflow that has ended leaves its slot free: whoever is rejected is rejected by a workflow that has not. */
  lemma RejectedByActiveHolder(ops: seq<Op>, op: Op)
    requires Trace(ops) && op.Init? && Reply(Exec(map[], ops), op).Duplicated?
    ensures var t := Exec(map[], ops);
            exists id :: id in t && id != op.id && HoldsSlot(t[id], op.row.queue.value, op.row.dedupId.value)
                         && (t[id].status.Delayed? || t[id].status.Enqueued? || t[id].status.Pending?)
  {
    ExecKeeps(map[], ops);
    var t := Exec(map[], ops);
    var id :| id in t && HoldsSlot(t[id], op.row.queue.value, op.row.dedupId.value);
    assert RowOk(t[id]);
  }

  // ---------- Lifecycle ----------

  predicate NeverResumed(ops: seq<Op>, id: string) {
    forall i | 0 <= i < |ops| :: ops[i].Resume? ==> id !in ops[i].ids
  }

  lemma RowLifecycle(op: Op, id: string, row: Row)
    ensures Completed(row.status) ==> Completed(NextRow(op, id, row).status)
    ensures !(op.Resume? && id in op.ids) ==> (row.status.Cancelled? ==> NextRow(op, id, row).status.Cancelled?)
    ensures !(op.Resume? && id in op.ids) ==> (row.deadline.Some? ==> NextRow(op, id, row).deadline == row.deadline)
  {
  }

  /** SUCCESS and ERROR as a set are never left. */
  lemma {:induction false} CompletedForever(t: Table, ops: seq<Op>, id: string)
    requires id in t && Completed(t[id].status)
    ensures id in Exec(t, ops) && Completed(Exec(t, ops)[id].status)
    decreases |ops|
  {
    if |ops| > 0 {
      RowLifecycle(ops[0], id, t[id]);
      CompletedForever(Next(t, ops[0]), ops[1..], id);
    }
  }

  /** CANCELLED is left only by a resume of that workflow. */
  lemma {:induction false} CancelledUntilResumed(t: Table, ops: seq<Op>, id: string)
    requires id in t && t[id].status.Cancelled? && NeverResumed(ops, id)
    ensures id in Exec(t, ops) && Exec(t, ops)[id].status.Cancelled?
    decreases |ops|
  {
    if |ops| > 0 {
      RowLifecycle(ops[0], id, t[id]);
      CancelledUntilResumed(Next(t, ops[0]), ops[1..], id);
    }
  }

  /**
  A deadline, once set (at the start, or at the first dequeue of a workflow with a timeout), survives every
  recovery and every later dequeue unchanged until a resume clears it.
  */
  lemma {:induction false} DeadlineUntilResumed(t: Table, ops: seq<Op>, id: string)
    requires id in t && t[id].deadline.Some? && NeverResumed(ops, id)
    ensures id in Exec(t, ops) && Exec(t, ops)[id].deadline == t[id].deadline
    decreases |ops|
  {
    if |ops| > 0 {
      RowLifecycle(ops[0], id, t[id]);
      DeadlineUntilResumed(Next(t, ops[0]), ops[1..], id);
    }
  }

  /** A dequeue of a workflow with a timeout leaves it with a deadline: its old one, or the timeout from now. */
  lemma ClaimStampsDeadline(t: Table, op: Op, id: string)
    requires op.Claim? && id in t && id in op.ids && t[id].status.Enqueued? && t[id].timeoutMS.Some?
    ensures Next(t, op)[id].status.Pending? && Next(t, op)[id].executor == op.executor
    ensures Next(t, op)[id].deadline ==
            if t[id].deadline.Some? then t[id].deadline else Some(op.dbNow + t[id].timeoutMS.value)
  {
  }

  /** The deadline computed at the first dequeue is the workflow's deadline from then on, until a resume. */
  lemma FirstDequeueFixesDeadline(t: Table, claim: Op, after: seq<Op>, id: string)
    requires claim.Claim? && id in t && id in claim.ids && t[id].status.Enqueued? && t[id].timeoutMS.Some? && t[id].deadline.None?
    requires NeverResumed(after, id)
    ensures var e := Exec(Next(t, claim), after); id in e && e[id].deadline == Some(claim.dbNow + t[id].timeoutMS.value)
  {
    ClaimStampsDeadline(t, claim, id);
    DeadlineUntilResumed(Next(t, claim), after, id);
  }

  /**
  The columns fit the status after any operations: waiting workflows have a queue and no start stamp (which is
  what lets the rate limiter count by stamp), dequeued ones have a stamp, cancelled ones have neither queue nor
  stamp, and completed ones hold an outcome of the right kind.
  */
  lemma ColumnsFitStatus(ops: seq<Op>, id: string)
    requires Trace(ops) && id in Exec(map[], ops)
    ensures var row := Exec(map[], ops)[id];
            && (Waiting(row.status) ==> row.queue.Some? && row.startedAt.None?)
            && (row.status.Pending? && row.queue.Some? ==> row.startedAt.Some?)
            && (row.status.Cancelled? ==> row.queue.None? && row.dedupId.None? && row.startedAt.None?)
            && (row.status.Success? ==> row.outcome.Some? && row.outcome.value.Returned? && row.dedupId.None?)
            && (row.status.Error? ==> row.outcome.Some? && row.outcome.value.Threw? && row.dedupId.None?)
            && (row.status.RetriesExceeded? ==> row.dedupId.None?)
  {
    ExecKeeps(map[], ops);
    assert RowOk(Exec(map[], ops)[id]);
  }
}
