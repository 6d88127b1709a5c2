/**
The `workflow_status` table and the statements that change it.

Every statement of the system database that updates existing rows does so row by row: what becomes of a row
depends on the statement and on that row alone (`NextRow`). Inserts add rows and leave the others alone.
*/
module WorkflowStatus {
  import opened Common

  datatype Status = Pending | Success | Error | RetriesExceeded | Cancelled | Enqueued | Delayed

  datatype Row = Row(
    status: Status,
    name: string,
    className: string,               // '' stands for NULL, as in the code
    configName: string,
    queue: Option<string>,
    partition: Option<string>,
    priority: int,
    executor: string,
    appVersion: Option<string>,
    createdAt: int,
    attempts: nat,                   // recovery_attempts
    timeoutMS: Option<int>,
    deadline: Option<int>,
    inputs: string,
    outcome: Option<Outcome>,
    dedupId: Option<string>,
    ownerXid: Option<string>,
    parent: Option<string>,
    startedAt: Option<int>,
    rateLimited: bool,
    delayUntil: Option<int>,
    debounceDeadline: Option<int>,
    isDebounced: bool)

  type Table = map<string, Row>

  const INTERNAL_QUEUE := "_dbos_internal_queue"

  predicate Waiting(status: Status) {
    status.Enqueued? || status.Delayed?
  }

  predicate Completed(status: Status) {
    status.Success? || status.Error?
  }

  // The partial unique index on (queue_name, deduplication_id): NULLs never collide.
  predicate HoldsSlot(row: Row, queue: string, dedupId: string) {
    row.queue == Some(queue) && row.dedupId == Some(dedupId)
  }

  predicate SlotTaken(t: Table, row: Row) {
    row.queue.Some? && row.dedupId.Some? &&
    exists id :: id in t && HoldsSlot(t[id], row.queue.value, row.dedupId.value)
  }

  // ---------- Building a row ----------

  // The options of a start or an enqueue that reach the row.
  datatype Request = Request(
    name: string, className: string, configName: string,
    queue: Option<string>, partition: Option<string>, priority: Option<int>, dedupId: Option<string>,
    delayMS: Option<int>, timeoutMS: Option<int>, propagatedDeadline: Option<int>,
    appVersion: Option<string>, inputs: string, parent: Option<string>)

  // The option checks made before anything is stored. Options of the queue machinery need a queue, and a
  // partitioned enqueue takes no deduplication ID.
  predicate Accepted(r: Request) {
    if r.queue.Some? then
      && (r.priority.Some? ==> 1 <= r.priority.value <= 2147483647)
      && !(r.partition.Some? && r.dedupId.Some?)
    else
      r.dedupId.None? && r.priority.None? && r.partition.None? && r.delayMS.None?
  }

  function Min(a: int, b: int): int {
    if a < b then a else b
  }

  // `debounce` is present for the debouncer's enqueue: its fixed deadline, if one is configured.
  function BuildRow(r: Request, executor: string, now: int, debounce: Option<Option<int>>): Row {
    var wanted := if r.queue.Some? && r.delayMS.Some? && r.delayMS.value > 0 then Some(now + r.delayMS.value) else None;
    var deadline := if debounce.Some? then debounce.value else None;
    var delayUntil := if wanted.Some? && deadline.Some? then Some(Min(wanted.value, deadline.value)) else wanted;
    Row(if r.queue.None? then Pending else if delayUntil.Some? then Delayed else Enqueued,
        r.name, r.className, r.configName, r.queue, r.partition,
        if r.priority.Some? then r.priority.value else 0,
        executor, r.appVersion, now,
        if r.queue.None? then 1 else 0,
        r.timeoutMS,
        if r.timeoutMS.None? then r.propagatedDeadline
        else if r.queue.Some? then None else Some(now + r.timeoutMS.value),
        r.inputs, None, r.dedupId, None, r.parent, None, false, delayUntil, deadline, debounce.Some?)
  }

  // What every stored row starts with.
  predicate NewRow(row: Row) {
    && (row.queue.None? ==> row.status.Pending? && row.dedupId.None? && !row.isDebounced)
    && (row.queue.Some? ==> Waiting(row.status))
    && row.startedAt.None? && !row.rateLimited && row.outcome.None?
    && row.attempts == (if Waiting(row.status) then 0 else 1)
    && (row.isDebounced ==> row.status.Delayed?)
    && (row.status.Delayed? ==> row.delayUntil.Some?)
    && CapRespected(row)
  }

  // A debounced row that still waits wakes no later than its fixed deadline.
  predicate CapRespected(row: Row) {
    row.isDebounced && row.status.Delayed? && row.delayUntil.Some? && row.debounceDeadline.Some? ==>
      row.delayUntil.value <= row.debounceDeadline.value
  }

  /** The option checks and the row construction of a start are enough: no caller can store another kind of row. */
  lemma AcceptedStartsAreNew(r: Request, executor: string, now: int)
    requires Accepted(r)
    ensures NewRow(BuildRow(r, executor, now, None))
  {
  }

  /** The debouncer's enqueue always has a queue and a positive period, so its row starts DELAYED under its cap. */
  lemma DebouncedEnqueuesAreNew(r: Request, executor: string, now: int, deadline: Option<int>)
    requires r.queue.Some? && r.delayMS.Some? && r.delayMS.value > 0
    ensures NewRow(BuildRow(r, executor, now, Some(deadline)))
    ensures BuildRow(r, executor, now, Some(deadline)).isDebounced
  {
  }

  // ---------- The statements ----------

  datatype Bounce = Bounce(
    name: string, className: string, queue: string, dedupId: string, delayUntil: int, inputs: string)

  datatype Op =
    | Init(id: string, row: Row, ownerXid: Option<string>, recovery: bool, dequeued: bool, maxRetries: nat)
    | EnqueueMany(rows: Table)                                    // ON CONFLICT DO NOTHING
    | RecordOutcome(id: string, outcome: Outcome)
    | Recover(executor: string, version: string, queue: string)
    | Cancel(ids: set<string>)
    | Resume(ids: set<string>, queue: string)
    | SetPriority(id: string, priority: int)
    | SetDelay(id: string, delayUntil: int)
    | Debounce(bounce: Bounce)
    | Transition(now: int)
    | Claim(ids: set<string>, executor: string, version: string, startTime: int, dbNow: int, rateLimited: bool)
    | TakeOver(id: string, executor: string)                      // the winner of a checkpoint marks the row

  // The upsert's DO UPDATE branch.
  function Upserted(row: Row, proposed: Row, increment: bool): Row {
    row.(attempts := if !Waiting(row.status) && increment then row.attempts + 1 else row.attempts,
         executor := if Waiting(proposed.status) then row.executor else proposed.executor)
  }

  predicate SameWorkflow(row: Row, proposed: Row) {
    row.name == proposed.name && row.className == proposed.className && row.configName == proposed.configName
  }

  datatype InitReply =
    | NameConflict
    | Duplicated
    | DeadLettered
    | Known(status: Status, deadline: Option<int>)       // somebody else's workflow: do not execute
    | Execute(status: Status, deadline: Option<int>)

  // The decision taken on the row that the upsert returned, for a workflow that already existed.
  function InitReplyFor(row: Row, op: Op): InitReply
    requires op.Init?
  {
    var up := Upserted(row, op.row, op.recovery || op.dequeued);
    if !SameWorkflow(row, op.row) then NameConflict
    else if op.ownerXid != row.ownerXid && !op.recovery && !op.dequeued then
      if row.status.RetriesExceeded? then DeadLettered else Known(row.status, row.deadline)
    else if op.maxRetries > 0 && up.attempts > op.maxRetries + 1 then DeadLettered
    else Execute(row.status, row.deadline)
  }

  // The row after that decision: everything is rolled back unless the caller owns or recovers the workflow.
  function InitRow(row: Row, op: Op): Row
    requires op.Init?
  {
    var up := Upserted(row, op.row, op.recovery || op.dequeued);
    if !SameWorkflow(row, op.row) || (op.ownerXid != row.ownerXid && !op.recovery && !op.dequeued) then row
    else if op.maxRetries > 0 && up.attempts > op.maxRetries + 1 && up.status.Pending? then
      up.(status := RetriesExceeded, dedupId := None)
    else up
  }

  predicate BounceMatches(b: Bounce, row: Row) {
    && row.name == b.name && row.className == b.className
    && HoldsSlot(row, b.queue, b.dedupId)
    && row.status.Delayed? && row.isDebounced
  }

  function NextRow(op: Op, id: string, row: Row): Row {
    match op
    case Init(i, _, _, _, _, _) => if id == i then InitRow(row, op) else row
    case EnqueueMany(_) => row
    case RecordOutcome(i, o) =>
      if id == i && !row.status.Cancelled?
      then row.(status := if o.Returned? then Success else Error, outcome := Some(o), dedupId := None)
      else row
    case Recover(e, v, q) =>
      if row.status.Pending? && row.executor == e && row.appVersion == Some(v)
      then row.(startedAt := None, status := Enqueued, queue := if row.queue.Some? then row.queue else Some(q))
      else row
    case Cancel(ids) =>
      if id in ids && !Completed(row.status)
      then row.(status := Cancelled, queue := None, dedupId := None, startedAt := None)
      else row
    case Resume(ids, q) =>
      if id in ids && !Completed(row.status)
      then row.(status := Enqueued, queue := Some(q), attempts := 0, deadline := None, dedupId := None, startedAt := None)
      else row
    case SetPriority(i, p) => if id == i && Waiting(row.status) then row.(priority := p) else row
    case SetDelay(i, d) => if id == i && row.status.Delayed? then row.(delayUntil := Some(d)) else row
    case Debounce(b) =>
      if BounceMatches(b, row)
      then row.(delayUntil := Some(if row.debounceDeadline.Some? then Min(row.debounceDeadline.value, b.delayUntil) else b.delayUntil),
                inputs := b.inputs)
      else row
    case Transition(now) =>
      if row.status.Delayed? && row.delayUntil.Some? && row.delayUntil.value <= now
      then row.(status := Enqueued, dedupId := if row.isDebounced then None else row.dedupId)
      else row
    case Claim(ids, e, v, start, dbNow, limited) =>
      if id in ids && row.status.Enqueued?
      then row.(status := Pending, executor := e, appVersion := Some(v), startedAt := Some(start), rateLimited := limited,
                deadline := if row.timeoutMS.Some? && row.deadline.None? then Some(dbNow + row.timeoutMS.value) else row.deadline)
      else row
    case TakeOver(i, e) => if id == i then row.(executor := e) else row
  }

  // The rows that the operation adds.
  function Inserted(t: Table, op: Op): Table {
    match op
    case Init(id, row, xid, _, _, _) =>
      if id in t || SlotTaken(t, row) then map[] else map[id := row.(ownerXid := xid)]
    case EnqueueMany(rows) => map id | id in rows && id !in t :: rows[id]
    case _ => map[]
  }

  function Next(t: Table, op: Op): (t': Table)
    ensures forall id | id in t :: id in t' && t'[id] == NextRow(op, id, t[id])
    ensures forall id | id in t' && id !in t :: id in Inserted(t, op) && t'[id] == Inserted(t, op)[id]
    ensures t'.Keys == t.Keys + Inserted(t, op).Keys
  {
    (map id | id in t :: NextRow(op, id, t[id])) + Inserted(t, op)
  }

  function Reply(t: Table, op: Op): InitReply
    requires op.Init?
  {
    if op.id in t then InitReplyFor(t[op.id], op)
    else if SlotTaken(t, op.row) then Duplicated
    else Execute(op.row.status, op.row.deadline)
  }

  // What the callers of the system database can ask for.
  predicate Enabled(op: Op) {
    match op
    case Init(_, row, _, _, _, _) => NewRow(row) && row.ownerXid.None?
    case EnqueueMany(rows) => forall id | id in rows ::
      NewRow(rows[id]) && rows[id].status.Enqueued? && rows[id].dedupId.None? && rows[id].ownerXid.None?
    case _ => true
  }

  predicate Trace(ops: seq<Op>) {
    forall i | 0 <= i < |ops| :: Enabled(ops[i])
  }

  function Exec(t: Table, ops: seq<Op>): Table
    decreases |ops|
  {
    if |ops| == 0 then t else Exec(Next(t, ops[0]), ops[1..])
  }
}
