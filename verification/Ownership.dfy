/**
Who runs a workflow, and how often.

Executors start workflows directly, claim and dispatch queued ones, crash, and are swept for recovery after
they have stopped. The results speak of one workflow, which is not resumed, because that restarts its count on purpose;
what happens to other workflows is free.
*/
module Ownership {
  import opened Common
  import opened WorkflowStatus

  // ---------- One owner per new workflow ID ----------

  predicate ToldToExecute(t: Table, op: Op) {
    op.Init? && !op.recovery && !op.dequeued && Reply(t, op).Execute?
  }

  // The owner and the names of a workflow never change.
  predicate SameIdentity(row: Row, row': Row) {
    row'.ownerXid == row.ownerXid && SameWorkflow(row', row)
  }

  lemma OwnerRow(op: Op, id: string, row: Row)
    ensures SameIdentity(row, NextRow(op, id, row))
  {
  }

  lemma {:induction false} OwnerFixed(t: Table, ops: seq<Op>, id: string)
    requires id in t
    ensures id in Exec(t, ops) && SameIdentity(t[id], Exec(t, ops)[id])
    decreases |ops|
  {
    if |ops| > 0 {
      OwnerRow(ops[0], id, t[id]);
      OwnerFixed(Next(t, ops[0]), ops[1..], id);
    }
  }

  /**
  Of all the starts of one workflow ID, at any time and in any order, those told to execute carry one owner
  transaction ID. Each call draws its own, so they are one call and its retries.
  */
  lemma OneOwner(t: Table, first: Op, between: seq<Op>, second: Op)
    requires first.Init? && second.Init? && first.id == second.id
    requires ToldToExecute(t, first) && ToldToExecute(Exec(Next(t, first), between), second)
    ensures first.ownerXid == second.ownerXid
  {
    OwnerRow(first, first.id, Next(t, first)[first.id]);
    if first.id in t {
      OwnerRow(first, first.id, t[first.id]);
    }
    OwnerFixed(Next(t, first), between, first.id);
  }

  /** A call that inserted the row but lost the acknowledgement is told to execute when it asks again. */
  lemma OwnerIsNotForgotten(t: Table, op: Op, between: seq<Op>)
    requires op.Init? && !op.recovery && !op.dequeued && op.id !in t && !SlotTaken(t, op.row)
    requires var u := Exec(Next(t, op), between); op.id in u && u[op.id].attempts <= op.maxRetries + 1
    ensures ToldToExecute(Exec(Next(t, op), between), op)
  {
    OwnerFixed(Next(t, op), between, op.id);
  }

  // ---------- Executors ----------

  datatype Holder = Holder(executor: string, workflow: string)
  datatype Call = Call(executor: string, workflow: string, xid: string)

  datatype System = System(
    t: Table,
    calls: set<Call>,        // starts whose initWorkflowStatus has not returned
    claimed: set<Holder>,    // dequeued, not yet dispatched
    running: set<Holder>,    // the body has started and has not been released
    xids: set<string>,       // owner transaction IDs drawn so far
    starts: multiset<string>) // body starts

  datatype Event =
    | BeginStart(call: Call)
    | Start(call: Call, row: Row, acknowledged: bool)
    | Dequeue(executor: string, claim: Op)
    | Dispatch(holder: Holder, row: Row, acknowledged: bool)
    | Advance(holder: Holder)                    // won a checkpoint
    | End(holder: Holder)
    | Stop(executor: string)
    | Sweep(executor: string, version: string)
    | Other(op: Op)

  // The retry limits of the workflows' functions; zero stands for no limit.
  type Limits = string -> nat

  // Operations of callers that neither run nor recover workflows.
  predicate Quiet(s: System, op: Op) {
    match op
    case EnqueueMany(_) => Enabled(op)
    case Init(_, row, xid, recovery, dequeued, _) =>
      Enabled(op) && row.queue.Some? && !recovery && !dequeued && (xid.Some? ==> xid.value !in s.xids)
    case RecordOutcome(_, _) => true
    case Cancel(_) => true
    case Resume(_, _) => true
    case SetPriority(_, _) => true
    case SetDelay(_, _) => true
    case Debounce(_) => true
    case Transition(_) => true
    case _ => false
  }

  // The executor has nothing to do with the workflow.
  predicate Idle(s: System, e: string, w: string) {
    && (forall c | c in s.calls && c.workflow == w :: c.executor != e)
    && Holder(e, w) !in s.claimed + s.running
  }

  // Workflow w is not resumed, and swept only for executors that have stopped, or do not run it.
  predicate Safe(s: System, ev: Event, w: string) {
    match ev
    case Sweep(e, _) => Idle(s, e, w)
    case Other(op) => op.Resume? ==> w !in op.ids
    case _ => true
  }

  predicate Possible(s: System, ev: Event) {
    match ev
    case BeginStart(c) => c.xid !in s.xids
    case Start(c, row, _) =>
      c in s.calls && NewRow(row) && row.ownerXid.None? && row.queue.None? && row.executor == c.executor
    case Dequeue(e, claim) => claim.Claim? && claim.executor == e
    case Dispatch(h, row, _) => h in s.claimed && NewRow(row) && row.ownerXid.None? && row.executor == h.executor
    case Advance(h) => h in s.running
    case End(h) => h in s.running
    case Stop(e) => true
    case Sweep(e, _) => true
    case Other(op) => Quiet(s, op)
  }

  function InitOf(limits: Limits, c: Call, row: Row): Op {
    Init(c.workflow, row, Some(c.xid), false, false, limits(c.workflow))
  }

  // The dispatch of a dequeued workflow; its owner transaction ID is drawn but never stored or compared.
  function DispatchOf(limits: Limits, h: Holder, row: Row): Op {
    Init(h.workflow, row, None, false, true, limits(h.workflow))
  }

  // The rows that the claim's update finds ENQUEUED.
  function ClaimedIds(t: Table, claim: Op): set<string>
    requires claim.Claim?
  {
    set id | id in t && id in claim.ids && t[id].status.Enqueued?
  }

  function Taken(e: string, ids: set<string>): set<Holder> {
    set id | id in ids :: Holder(e, id)
  }

  function NextSystem(s: System, limits: Limits, ev: Event): System
    requires Possible(s, ev)
  {
    match ev
    case BeginStart(c) => s.(calls := s.calls + {c}, xids := s.xids + {c.xid})
    case Start(c, row, ack) =>
      var op := InitOf(limits, c, row);
      var s' := s.(t := Next(s.t, op));
      var h := Holder(c.executor, c.workflow);
      if !ack then s'
      else if Reply(s.t, op).Execute? && h !in s.running
      then s'.(calls := s.calls - {c}, running := s.running + {h}, starts := s.starts + multiset{c.workflow})
      else s'.(calls := s.calls - {c})
    case Dequeue(e, claim) =>
      s.(t := Next(s.t, claim),
         claimed := s.claimed + Taken(e, ClaimedIds(s.t, claim)))
    case Dispatch(h, row, ack) =>
      var op := DispatchOf(limits, h, row);
      var s' := s.(t := Next(s.t, op));
      if !ack then s'
      else if Reply(s.t, op).Execute? && h !in s.running
      then s'.(claimed := s.claimed - {h}, running := s.running + {h}, starts := s.starts + multiset{h.workflow})
      else s'.(claimed := s.claimed - {h})
    case Advance(h) => s.(t := Next(s.t, TakeOver(h.workflow, h.executor)))
    case End(h) => s.(running := s.running - {h})
    case Stop(e) =>
      s.(calls := (set c | c in s.calls && c.executor != e),
         claimed := (set h | h in s.claimed && h.executor != e),
         running := (set h | h in s.running && h.executor != e))
    case Sweep(e, v) => s.(t := Next(s.t, Recover(e, v, INTERNAL_QUEUE)))
    case Other(op) =>
      s.(t := Next(s.t, op), xids := s.xids + if op.Init? && op.ownerXid.Some? then {op.ownerXid.value} else {})
  }

  predicate History(s: System, limits: Limits, evs: seq<Event>)
    decreases |evs|
  {
    |evs| == 0 || (Possible(s, evs[0]) && History(NextSystem(s, limits, evs[0]), limits, evs[1..]))
  }

  function Run(s: System, limits: Limits, evs: seq<Event>): System
    requires History(s, limits, evs)
    decreases |evs|
  {
    if |evs| == 0 then s else Run(NextSystem(s, limits, evs[0]), limits, evs[1..])
  }

  predicate AllSafe(s: System, limits: Limits, evs: seq<Event>, w: string)
    requires History(s, limits, evs)
    decreases |evs|
  {
    |evs| == 0 || (Safe(s, evs[0], w) && AllSafe(NextSystem(s, limits, evs[0]), limits, evs[1..], w))
  }

  predicate Empty(s: System) {
    s == System(map[], {}, {}, {}, {}, multiset{})
  }

  // ---------- What is kept ----------

  // The call's insert has committed, whether or not the caller knows.
  predicate Landed(t: Table, c: Call) {
    c.workflow in t && t[c.workflow].ownerXid == Some(c.xid)
  }

  // The executor has the workflow in hand: it runs it, is about to dispatch it, or its start has committed.
  predicate Live(s: System, e: string, id: string) {
    Holder(e, id) in s.claimed || Holder(e, id) in s.running || exists c :: c in s.calls && c.executor == e && c.workflow == id && Landed(s.t, c)
  }

  // A row in an executor's hands is out of the queue, and marked with that executor while PENDING.
  predicate InHand(t: Table, e: string, id: string) {
    id in t && !Waiting(t[id].status) && (t[id].status.Pending? ==> t[id].executor == e)
  }

  ghost predicate Hands(s: System, w: string) {
    && (forall e :: Live(s, e, w) ==> InHand(s.t, e, w))
    && (forall e, f :: Live(s, e, w) && Live(s, f, w) ==> e == f)
  }

  predicate Tickets(s: System) {
    && (forall c | c in s.calls :: c.xid in s.xids)
    && (forall c, d | c in s.calls && d in s.calls :: c.xid == d.xid ==> c == d)
    && (forall id | id in s.t :: s.t[id].ownerXid.Some? ==> s.t[id].ownerXid.value in s.xids)
  }

  // Every start is paid for by an attempt, and a committed start that has not returned has one left.
  predicate Counts(s: System, limit: nat, w: string) {
    && (w in s.starts ==> w in s.t)
    && (w in s.t ==> s.starts[w] <= s.t[w].attempts)
    && (forall c | c in s.calls && c.workflow == w :: Landed(s.t, c) ==> s.starts[w] < s.t[w].attempts)
    && s.starts[w] <= limit + 1
  }

  // What is kept of workflow w, whose retry limit is given.
  ghost predicate Inv(s: System, limit: nat, w: string) {
    Hands(s, w) && (limit > 0 ==> Counts(s, limit, w))
  }

  // ---------- Tickets ----------

  lemma OwnersKept(t: Table, op: Op)
    ensures forall id | id in Next(t, op) :: (id in t && Next(t, op)[id].ownerXid == t[id].ownerXid)
                                             || (id in Inserted(t, op) && Next(t, op)[id] == Inserted(t, op)[id])
  {
    forall id | id in t {
      OwnerRow(op, id, t[id]);
    }
  }

  // Rows keep their owners, and new ones have owners that were drawn before or now.
  lemma TicketsStay(s: System, op: Op, s': System)
    requires Tickets(s) && s'.t == Next(s.t, op) && s'.calls <= s.calls && s.xids <= s'.xids
    requires forall id | id in Inserted(s.t, op) :: Inserted(s.t, op)[id].ownerXid.Some? ==> Inserted(s.t, op)[id].ownerXid.value in s'.xids
    ensures Tickets(s')
  {
    OwnersKept(s.t, op);
  }

  lemma InitTickets(s: System, limits: Limits, ev: Event)
    requires Tickets(s) && Possible(s, ev) && (ev.Start? || ev.Dispatch?)
    ensures Tickets(NextSystem(s, limits, ev))
  {
    var op := if ev.Start? then InitOf(limits, ev.call, ev.row) else DispatchOf(limits, ev.holder, ev.row);
    TicketsStay(s, op, NextSystem(s, limits, ev));
  }

  lemma TicketsKept(s: System, limits: Limits, ev: Event)
    requires Tickets(s) && Possible(s, ev)
    ensures Tickets(NextSystem(s, limits, ev))
  {
    var s' := NextSystem(s, limits, ev);
    match ev
    case BeginStart(_) =>
    case Start(_, _, _) => InitTickets(s, limits, ev);
    case Dispatch(_, _, _) => InitTickets(s, limits, ev);
    case Dequeue(_, claim) => TicketsStay(s, claim, s');
    case Advance(h) => TicketsStay(s, TakeOver(h.workflow, h.executor), s');
    case End(_) =>
    case Stop(_) =>
    case Sweep(e, v) => TicketsStay(s, Recover(e, v, INTERNAL_QUEUE), s');
    case Other(op) => TicketsStay(s, op, s');
  }

  // ---------- One workflow ----------

  // Nothing changes for workflow w.
  ghost predicate SameFor(s: System, s': System, w: string) {
    && (w in s.t <==> w in s'.t) && (w in s.t ==> s'.t[w] == s.t[w]) && s'.starts[w] == s.starts[w]
    && (forall c: Call | c.workflow == w :: c in s'.calls <==> c in s.calls)
    && (forall h: Holder | h.workflow == w :: (h in s'.claimed <==> h in s.claimed) && (h in s'.running <==> h in s.running))
  }

  lemma SameKeeps(s: System, limit: nat, w: string, s': System)
    requires Inv(s, limit, w) && SameFor(s, s', w)
    ensures Inv(s', limit, w)
  {
    forall e ensures Live(s', e, w) <==> Live(s, e, w) {
    }
  }

  // Only the table changes, and the same calls have landed in it.
  ghost predicate SameHolders(s: System, s': System, w: string) {
    && s'.calls == s.calls && s'.claimed == s.claimed && s'.running == s.running && s'.starts == s.starts
    && forall c | c in s.calls && c.workflow == w :: Landed(s'.t, c) <==> Landed(s.t, c)
  }

  lemma SameLive(s: System, s': System, w: string)
    requires SameHolders(s, s', w)
    ensures forall e :: Live(s', e, w) <==> Live(s, e, w)
  {
  }

  // A change of a row that concerns no holder.
  predicate Calm(row: Row, row': Row) {
    && row'.ownerXid == row.ownerXid && row'.attempts >= row.attempts
    && (Waiting(row'.status) ==> Waiting(row.status))
    && (row'.status.Pending? ==> row.status.Pending? && row'.executor == row.executor)
  }

  lemma QuietRow(s: System, op: Op, id: string, row: Row)
    requires Quiet(s, op) && !(op.Resume? && id in op.ids)
    ensures Calm(row, NextRow(op, id, row))
  {
  }

  /** A new row or a calm change of it keeps the invariant. */
  lemma CalmKeeps(s: System, limit: nat, w: string, s': System)
    requires Inv(s, limit, w) && SameHolders(s, s', w) && (w in s.t ==> w in s'.t && Calm(s.t[w], s'.t[w]))
    ensures Inv(s', limit, w)
  {
    SameLive(s, s', w);
    forall e | Live(s', e, w) ensures InHand(s'.t, e, w) {
      assert InHand(s.t, e, w);
    }
  }

  /** The row changes, and suits whoever holds it. */
  lemma RowReplaced(s: System, limit: nat, w: string, s': System)
    requires Inv(s, limit, w) && SameHolders(s, s', w) && w in s.t && w in s'.t && s'.t[w].attempts >= s.t[w].attempts
    requires forall e :: Live(s, e, w) ==> InHand(s'.t, e, w)
    ensures Inv(s', limit, w)
  {
    SameLive(s, s', w);
  }

  /** Letting go of calls, claims or runs keeps the invariant. */
  lemma ShrinkKeeps(s: System, limit: nat, w: string, s': System)
    requires Inv(s, limit, w) && s'.t == s.t && s'.starts == s.starts
    requires s'.calls <= s.calls && s'.claimed <= s.claimed && s'.running <= s.running
    ensures Inv(s', limit, w)
  {
    forall e | Live(s', e, w) ensures Live(s, e, w) {
    }
  }

  lemma NotLive(s: System, w: string, e: string)
    requires Hands(s, w) && w in s.t && (Waiting(s.t[w].status) || (s.t[w].status.Pending? && s.t[w].executor == e && Idle(s, e, w)))
    ensures forall f :: !Live(s, f, w)
  {
    forall f ensures !Live(s, f, w) {
      assert Live(s, f, w) ==> InHand(s.t, f, w);
    }
  }

  lemma LandedSame(s: System, s': System, w: string)
    requires Tickets(s) && (w in s.t ==> w in s'.t && s'.t[w].ownerXid == s.t[w].ownerXid)
    requires w !in s.t && w in s'.t && s'.t[w].ownerXid.Some? ==> s'.t[w].ownerXid.value !in s.xids
    ensures forall c | c in s.calls && c.workflow == w :: Landed(s'.t, c) <==> Landed(s.t, c)
  {
  }

  lemma InitReplaces(t: Table, op: Op)
    requires op.Init? && op.id in t
    ensures Next(t, op) == t[op.id := InitRow(t[op.id], op)]
  {
  }

  lemma OtherKeeps(s: System, limits: Limits, op: Op, w: string)
    requires Tickets(s) && Inv(s, limits(w), w) && Quiet(s, op) && Safe(s, Other(op), w)
    ensures Inv(NextSystem(s, limits, Other(op)), limits(w), w)
  {
    var s' := NextSystem(s, limits, Other(op));
    if w in s.t {
      QuietRow(s, op, w, s.t[w]);
    }
    LandedSame(s, s', w);
    CalmKeeps(s, limits(w), w, s');
  }

  lemma SweepKeeps(s: System, limits: Limits, e: string, v: string, w: string)
    requires Tickets(s) && Inv(s, limits(w), w) && Idle(s, e, w)
    ensures Inv(NextSystem(s, limits, Sweep(e, v)), limits(w), w)
  {
    var s' := NextSystem(s, limits, Sweep(e, v));
    if w in s.t && s'.t[w] != s.t[w] {
      NotLive(s, w, e);
      LandedSame(s, s', w);
      RowReplaced(s, limits(w), w, s');
    } else {
      SameKeeps(s, limits(w), w, s');
    }
  }

  lemma TakeOverReplaces(t: Table, id: string, e: string)
    requires id in t
    ensures Next(t, TakeOver(id, e)) == t[id := t[id].(executor := e)]
  {
  }

  lemma AdvanceKeeps(s: System, limits: Limits, h: Holder, w: string)
    requires Tickets(s) && Inv(s, limits(w), w) && h in s.running
    ensures Inv(NextSystem(s, limits, Advance(h)), limits(w), w)
  {
    var s' := NextSystem(s, limits, Advance(h));
    if h.workflow == w {
      assert Live(s, h.executor, w);
      assert InHand(s.t, h.executor, w);
      TakeOverReplaces(s.t, w, h.executor);
      LandedSame(s, s', w);
      RowReplaced(s, limits(w), w, s');
    } else {
      SameKeeps(s, limits(w), w, s');
    }
  }

  // The dequeuer takes a row that nobody held, and it is marked as its own.
  lemma HandTaken(s: System, limit: nat, w: string, e: string, s': System)
    requires Inv(s, limit, w) && (forall f :: !Live(s, f, w)) && InHand(s.t, e, w)
    requires s' == s.(claimed := s'.claimed) && forall f :: Holder(f, w) in s'.claimed ==> f == e
    ensures Inv(s', limit, w)
  {
    forall f | Live(s', f, w) ensures f == e {
      assert !Live(s, f, w);
    }
  }

  lemma ClaimedRow(t: Table, claim: Op, w: string)
    requires claim.Claim? && w in t
    ensures w in Next(t, claim) && Next(t, claim)[w].ownerXid == t[w].ownerXid && Next(t, claim)[w].attempts == t[w].attempts
    ensures if w in ClaimedIds(t, claim) then InHand(Next(t, claim), claim.executor, w) else Next(t, claim)[w] == t[w]
  {
  }

  lemma DequeueKeeps(s: System, limits: Limits, e: string, claim: Op, w: string)
    requires Tickets(s) && Inv(s, limits(w), w) && claim.Claim? && claim.executor == e
    ensures Inv(NextSystem(s, limits, Dequeue(e, claim)), limits(w), w)
  {
    var s' := NextSystem(s, limits, Dequeue(e, claim));
    if w in s.t {
      ClaimedRow(s.t, claim, w);
    }
    if w in ClaimedIds(s.t, claim) {
      var m := s.(t := s'.t);
      NotLive(s, w, e);
      LandedSame(s, m, w);
      RowReplaced(s, limits(w), w, m);
      SameLive(s, m, w);
      TakenOnly(s, e, ClaimedIds(s.t, claim), w);
      HandTaken(m, limits(w), w, e, s');
    } else {
      SameKeeps(s, limits(w), w, s');
    }
  }

  lemma TakenOnly(s: System, e: string, ids: set<string>, w: string)
    requires forall f :: !Live(s, f, w)
    ensures forall f :: Holder(f, w) in s.claimed + Taken(e, ids) ==> f == e
  {
    forall f | Holder(f, w) in s.claimed ensures false {
      assert Live(s, f, w);
    }
  }

  // One more start of a workflow that its holder has in hand, within its budget.
  lemma StartCounted(s: System, limit: nat, h: Holder, calls': set<Call>, claimed': set<Holder>)
    requires Inv(s, limit, h.workflow) && Live(s, h.executor, h.workflow) && h.workflow in s.t
    requires calls' <= s.calls && claimed' <= s.claimed
    requires limit > 0 ==> s.starts[h.workflow] < s.t[h.workflow].attempts <= limit + 1
    requires limit > 0 ==>
               forall c | c in calls' && c.workflow == h.workflow && Landed(s.t, c) :: s.starts[h.workflow] + 1 < s.t[h.workflow].attempts
    ensures Inv(s.(calls := calls', claimed := claimed', running := s.running + {h}, starts := s.starts + multiset{h.workflow}), limit, h.workflow)
  {
    var s' := s.(calls := calls', claimed := claimed', running := s.running + {h}, starts := s.starts + multiset{h.workflow});
    forall e | Live(s', e, h.workflow) ensures Live(s, e, h.workflow) {
    }
  }

  lemma LiveByArrival(s: System, s': System, c: Call, e: string)
    requires Tickets(s) && Hands(s, c.workflow) && c in s.calls && c.workflow !in s.t && Live(s', e, c.workflow)
    requires s' == s.(t := s'.t) && c.workflow in s'.t && s'.t[c.workflow].ownerXid == Some(c.xid)
    ensures e == c.executor
  {
    assert Live(s, e, c.workflow) ==> InHand(s.t, e, c.workflow);
  }

  /** A call's row arrives: the call has the workflow in hand, and nobody else does. */
  lemma RowAdded(s: System, limit: nat, c: Call, row: Row)
    requires Tickets(s) && Inv(s, limit, c.workflow) && c in s.calls && c.workflow !in s.t
    requires row.ownerXid == Some(c.xid) && row.status.Pending? && row.executor == c.executor && row.attempts == 1
    ensures Inv(s.(t := s.t[c.workflow := row]), limit, c.workflow) && Landed(s.t[c.workflow := row], c)
  {
    var s' := s.(t := s.t[c.workflow := row]);
    forall e | Live(s', e, c.workflow) ensures e == c.executor {
      LiveByArrival(s, s', c, e);
    }
  }

  lemma FreshStartLands(s: System, limits: Limits, c: Call, row: Row)
    requires Tickets(s) && Inv(s, limits(c.workflow), c.workflow) && Possible(s, Start(c, row, true)) && c.workflow !in s.t
    ensures var op := InitOf(limits, c, row);
            && Inv(s.(t := Next(s.t, op)), limits(c.workflow), c.workflow) && Landed(Next(s.t, op), c)
            && Next(s.t, op)[c.workflow].attempts <= limits(c.workflow) + 1
  {
    var op := InitOf(limits, c, row);
    assert !SlotTaken(s.t, row);
    assert Next(s.t, op) == s.t[c.workflow := row.(ownerXid := Some(c.xid))];
    RowAdded(s, limits(c.workflow), c, row.(ownerXid := Some(c.xid)));
  }

  // The row that a repeated start of its owner leaves.
  lemma RepeatedStart(row: Row, op: Op, limit: nat)
    requires op.Init? && !op.recovery && !op.dequeued && op.maxRetries == limit && op.row.queue.None? && NewRow(op.row)
    requires !Waiting(row.status)
    ensures var r := InitRow(row, op);
            && r.ownerXid == row.ownerXid && r.attempts >= row.attempts && !Waiting(r.status)
            && (r.status.Pending? ==> row.status.Pending? && (r.executor == op.row.executor || r == row))
            && (limit > 0 && InitReplyFor(row, op).Execute? ==> r.attempts <= limit + 1)
  {
  }

  lemma KnownStartLands(s: System, limits: Limits, c: Call, row: Row)
    requires Tickets(s) && Inv(s, limits(c.workflow), c.workflow) && Possible(s, Start(c, row, true)) && c.workflow in s.t
    ensures var op := InitOf(limits, c, row);
            && Inv(s.(t := Next(s.t, op)), limits(c.workflow), c.workflow)
            && (Reply(s.t, op).Execute? ==>
                  Landed(Next(s.t, op), c) && (limits(c.workflow) > 0 ==> Next(s.t, op)[c.workflow].attempts <= limits(c.workflow) + 1))
  {
    var op, w := InitOf(limits, c, row), c.workflow;
    var s' := s.(t := Next(s.t, op));
    InitReplaces(s.t, op);
    if s.t[w].ownerXid == Some(c.xid) {
      assert Landed(s.t, c);
      assert Live(s, c.executor, w);
      assert InHand(s.t, c.executor, w);
      RepeatedStart(s.t[w], op, limits(w));
      LandedSame(s, s', w);
      RowReplaced(s, limits(w), w, s');
    } else {
      assert s.t[w := s.t[w]] == s.t;
    }
  }

  lemma StartKeeps(s: System, limits: Limits, c: Call, row: Row, ack: bool)
    requires Tickets(s) && Inv(s, limits(c.workflow), c.workflow) && Possible(s, Start(c, row, ack))
    ensures Inv(NextSystem(s, limits, Start(c, row, ack)), limits(c.workflow), c.workflow)
  {
    var op, limit := InitOf(limits, c, row), limits(c.workflow);
    var m := s.(t := Next(s.t, op));
    if c.workflow in s.t {
      KnownStartLands(s, limits, c, row);
    } else {
      FreshStartLands(s, limits, c, row);
    }
    if ack {
      var h := Holder(c.executor, c.workflow);
      if Reply(s.t, op).Execute? && h !in s.running {
        assert Landed(m.t, c);
        assert Live(m, h.executor, h.workflow);
        StartCounted(m, limit, h, m.calls - {c}, m.claimed);
      } else {
        ShrinkKeeps(m, limit, c.workflow, m.(calls := m.calls - {c}));
      }
    }
  }

  // A dispatch spends one attempt.
  lemma DispatchedRow(row: Row, op: Op, limit: nat)
    requires op.Init? && op.dequeued && op.maxRetries == limit && NewRow(op.row) && !Waiting(row.status)
    ensures var r := InitRow(row, op);
            && r.ownerXid == row.ownerXid && r.attempts >= row.attempts && !Waiting(r.status)
            && (r.status.Pending? ==> row.status.Pending? && (r.executor == op.row.executor || r.executor == row.executor))
            && (InitReplyFor(row, op).Execute? ==> r.attempts == row.attempts + 1 && (limit > 0 ==> r.attempts <= limit + 1))
  {
  }

  lemma DispatchLands(s: System, limits: Limits, h: Holder, row: Row)
    requires Tickets(s) && Inv(s, limits(h.workflow), h.workflow) && Possible(s, Dispatch(h, row, true))
    ensures var op, w, limit := DispatchOf(limits, h, row), h.workflow, limits(h.workflow);
            var m := s.(t := Next(s.t, op));
            && w in s.t && w in m.t && Inv(m, limit, w) && Live(m, h.executor, w) && SameHolders(s, m, w)
            && (Reply(s.t, op).Execute? ==> m.t[w].attempts == s.t[w].attempts + 1 && (limit > 0 ==> m.t[w].attempts <= limit + 1))
  {
    var op, w := DispatchOf(limits, h, row), h.workflow;
    assert Live(s, h.executor, w);
    assert InHand(s.t, h.executor, w);
    InitReplaces(s.t, op);
    DispatchedRow(s.t[w], op, limits(w));
    LandedSame(s, s.(t := Next(s.t, op)), w);
    RowReplaced(s, limits(w), w, s.(t := Next(s.t, op)));
  }

  lemma DispatchKeeps(s: System, limits: Limits, h: Holder, row: Row, ack: bool)
    requires Tickets(s) && Inv(s, limits(h.workflow), h.workflow) && Possible(s, Dispatch(h, row, ack))
    ensures Inv(NextSystem(s, limits, Dispatch(h, row, ack)), limits(h.workflow), h.workflow)
  {
    var op, limit := DispatchOf(limits, h, row), limits(h.workflow);
    var m := s.(t := Next(s.t, op));
    DispatchLands(s, limits, h, row);
    if ack {
      if Reply(s.t, op).Execute? && h !in s.running {
        StartCounted(m, limit, h, m.calls, m.claimed - {h});
      } else {
        ShrinkKeeps(m, limit, h.workflow, m.(claimed := m.claimed - {h}));
      }
    }
  }

  lemma BeginStartKeeps(s: System, limits: Limits, c: Call, w: string)
    requires Tickets(s) && Inv(s, limits(w), w) && c.xid !in s.xids
    ensures Inv(NextSystem(s, limits, BeginStart(c)), limits(w), w)
  {
    var s' := NextSystem(s, limits, BeginStart(c));
    assert !Landed(s.t, c);
    forall e | Live(s', e, w) ensures Live(s, e, w) {
    }
  }

  // A start or a dispatch of another workflow.
  lemma InitElsewhere(s: System, limits: Limits, ev: Event, w: string)
    requires Possible(s, ev) && (ev.Start? || ev.Dispatch?) && (if ev.Start? then ev.call.workflow else ev.holder.workflow) != w
    ensures SameFor(s, NextSystem(s, limits, ev), w)
  {
    var op := if ev.Start? then InitOf(limits, ev.call, ev.row) else DispatchOf(limits, ev.holder, ev.row);
    assert w in Next(s.t, op) <==> w in s.t;
  }

  lemma StepKeeps(s: System, limits: Limits, ev: Event, w: string)
    requires Tickets(s) && Inv(s, limits(w), w) && Possible(s, ev) && Safe(s, ev, w)
    ensures Inv(NextSystem(s, limits, ev), limits(w), w)
  {
    match ev
    case BeginStart(c) => BeginStartKeeps(s, limits, c, w);
    case Start(c, row, ack) =>
      if c.workflow == w {
        StartKeeps(s, limits, c, row, ack);
      } else {
        InitElsewhere(s, limits, ev, w);
        SameKeeps(s, limits(w), w, NextSystem(s, limits, ev));
      }
    case Dequeue(e, claim) => DequeueKeeps(s, limits, e, claim, w);
    case Dispatch(h, row, ack) =>
      if h.workflow == w {
        DispatchKeeps(s, limits, h, row, ack);
      } else {
        InitElsewhere(s, limits, ev, w);
        SameKeeps(s, limits(w), w, NextSystem(s, limits, ev));
      }
    case Advance(h) => AdvanceKeeps(s, limits, h, w);
    case End(h) => ShrinkKeeps(s, limits(w), w, NextSystem(s, limits, ev));
    case Stop(e) => ShrinkKeeps(s, limits(w), w, NextSystem(s, limits, ev));
    case Sweep(e, v) => SweepKeeps(s, limits, e, v, w);
    case Other(op) => OtherKeeps(s, limits, op, w);
  }

  lemma {:induction false} RunKeeps(s: System, limits: Limits, evs: seq<Event>, w: string)
    requires Tickets(s) && Inv(s, limits(w), w) && History(s, limits, evs) && AllSafe(s, limits, evs, w)
    ensures Inv(Run(s, limits, evs), limits(w), w)
    decreases |evs|
  {
    if |evs| > 0 {
      TicketsKept(s, limits, evs[0]);
      StepKeeps(s, limits, evs[0], w);
      RunKeeps(NextSystem(s, limits, evs[0]), limits, evs[1..], w);
    }
  }

  // ---------- Main results ----------

  /**
  The body of a workflow with a retry limit that is not resumed, and swept only for executors that do not run it, starts at
  most maxRetries + 1 times.
  */
  lemma BoundedStarts(s: System, limits: Limits, evs: seq<Event>, id: string)
    requires Empty(s) && History(s, limits, evs) && AllSafe(s, limits, evs, id) && limits(id) > 0
    ensures Run(s, limits, evs).starts[id] <= limits(id) + 1
  {
    RunKeeps(s, limits, evs, id);
  }

  /** ... and, with a retry limit or without, no two executors ever have it in hand: a claim or a direct start admits one runner. */
  lemma OneRunner(s: System, limits: Limits, evs: seq<Event>, e: string, f: string, id: string)
    requires Empty(s) && History(s, limits, evs) && AllSafe(s, limits, evs, id)
    ensures var z := Run(s, limits, evs);
            Holder(e, id) in z.claimed + z.running && Holder(f, id) in z.claimed + z.running ==> e == f
  {
    RunKeeps(s, limits, evs, id);
    var z := Run(s, limits, evs);
    assert Holder(e, id) in z.claimed + z.running ==> Live(z, e, id);
    assert Holder(f, id) in z.claimed + z.running ==> Live(z, f, id);
  }

  lemma Unfold(s: System, limits: Limits, ev: Event, rest: seq<Event>)
    requires Possible(s, ev) && History(NextSystem(s, limits, ev), limits, rest)
    ensures History(s, limits, [ev] + rest) && Run(s, limits, [ev] + rest) == Run(NextSystem(s, limits, ev), limits, rest)
  {
    assert ([ev] + rest)[1..] == rest;
  }

  function ClaimBy(e: string): Event {
    Dequeue(e, Claim({"w"}, e, "v", 0, 0, false))
  }

  predicate Queued(s: System) {
    "w" in s.t && s.t["w"].status.Enqueued?
  }

  lemma Claimed(s: System, limits: Limits, e: string)
    requires Queued(s)
    ensures var z := NextSystem(s, limits, ClaimBy(e));
            && z.claimed == s.claimed + {Holder(e, "w")} && "w" in z.t
            && z.t["w"].status.Pending? && z.t["w"].executor == e && z.t["w"].appVersion == Some("v")
  {
    assert ClaimedIds(s.t, ClaimBy(e).claim) == {"w"};
    assert Taken(e, {"w"}) == {Holder(e, "w")};
  }

  lemma ClaimStep(s: System, limits: Limits, e: string, rest: seq<Event>)
    requires Queued(s) && History(NextSystem(s, limits, ClaimBy(e)), limits, rest)
    ensures History(s, limits, [ClaimBy(e)] + rest)
    ensures Run(s, limits, [ClaimBy(e)] + rest) == Run(NextSystem(s, limits, ClaimBy(e)), limits, rest)
  {
    Unfold(s, limits, ClaimBy(e), rest);
  }

  // The disturbance puts the row back into the queue, and another executor claims it.
  lemma ClaimedAgain(s: System, limits: Limits, ev: Event) returns (evs: seq<Event>)
    requires ev == Sweep("e", "v") || ev == Other(Resume({"w"}, "q"))
    requires "w" in s.t && s.t["w"].status.Pending? && s.t["w"].executor == "e" && s.t["w"].appVersion == Some("v")
    ensures History(s, limits, evs) && Run(s, limits, evs).claimed == s.claimed + {Holder("f", "w")}
  {
    var s' := NextSystem(s, limits, ev);
    Claimed(s', limits, "f");
    ClaimStep(s', limits, "f", []);
    Unfold(s, limits, ev, [ClaimBy("f")] + []);
    evs := [ev] + ([ClaimBy("f")] + []);
  }

  /** A workflow that is resumed, or swept for an executor that is alive, while that executor has it in hand gets two executors. */
  lemma DisturbedWorkflowHasTwo(s: System, limits: Limits, row: Row, ev: Event) returns (evs: seq<Event>)
    requires Empty(s) && NewRow(row) && row.status.Enqueued? && row.dedupId.None? && row.ownerXid.None?
    requires ev == Sweep("e", "v") || ev == Other(Resume({"w"}, "q"))
    ensures History(s, limits, evs)
    ensures var z := Run(s, limits, evs); Holder("e", "w") in z.claimed && Holder("f", "w") in z.claimed
  {
    var enqueue := Other(EnqueueMany(map["w" := row]));
    var s1 := NextSystem(s, limits, enqueue);
    Claimed(s1, limits, "e");
    evs := ClaimedAgain(NextSystem(s1, limits, ClaimBy("e")), limits, ev);
    ClaimStep(s1, limits, "e", evs);
    Unfold(s, limits, enqueue, [ClaimBy("e")] + evs);
    evs := [enqueue] + ([ClaimBy("e")] + evs);
  }

  /** A workflow whose budget is spent is dead-lettered by its next dispatch, which also frees its slot. */
  lemma SpentBudgetDeadLetters(t: Table, limits: Limits, h: Holder, row: Row)
    requires h.workflow in t && t[h.workflow].status.Pending? && limits(h.workflow) > 0
    requires t[h.workflow].attempts > limits(h.workflow) && SameWorkflow(t[h.workflow], row)
    ensures var op := DispatchOf(limits, h, row);
            && Reply(t, op).DeadLettered?
            && Next(t, op)[h.workflow].status.RetriesExceeded? && Next(t, op)[h.workflow].dedupId.None?
  {
  }

  // The row of a workflow that has been resumed onto the queue and claimed from it.
  predicate Restarted(row: Row, r: Row, queue: string, claim: Op)
    requires claim.Claim?
  {
    && r.status.Pending? && r.attempts == 0 && r.executor == claim.executor && r.queue == Some(queue)
    && r.deadline == DeadlineFrom(row.timeoutMS, claim.dbNow)
    && r.name == row.name && r.className == row.className && r.configName == row.configName
  }

  lemma ResumedRow(id: string, row: Row, ids: set<string>, queue: string, claim: Op)
    requires id in ids && !Completed(row.status) && claim.Claim? && id in claim.ids
    ensures Restarted(row, NextRow(claim, id, NextRow(Resume(ids, queue), id, row)), queue, claim)
  {
  }

  function DeadlineFrom(timeoutMS: Option<int>, dbNow: int): Option<int> {
    if timeoutMS.Some? then Some(dbNow + timeoutMS.value) else None
  }

  /**
  A resumed workflow runs again, even if it was cancelled or its attempts were spent: once it is dequeued, its dispatch
  is told to execute, with a deadline counted from that dequeue.
  */
  lemma ResumedRunsAgain(t: Table, ids: set<string>, queue: string, claim: Op, u: Table, limits: Limits, h: Holder, row: Row)
    requires h.workflow in t && h.workflow in ids && !Completed(t[h.workflow].status) && SameWorkflow(t[h.workflow], row)
    requires claim.Claim? && h.workflow in claim.ids && claim.executor == h.executor
    requires u == Next(Next(t, Resume(ids, queue)), claim)
    ensures Reply(u, DispatchOf(limits, h, row)) == Execute(Pending, DeadlineFrom(t[h.workflow].timeoutMS, claim.dbNow))
  {
    ResumedAndClaimed(t, ids, queue, claim, h.workflow);
    RestartedExecutes(t[h.workflow], u, queue, claim, limits, h, row);
  }

  lemma RestartedExecutes(before: Row, u: Table, queue: string, claim: Op, limits: Limits, h: Holder, row: Row)
    requires h.workflow in u && claim.Claim? && Restarted(before, u[h.workflow], queue, claim) && SameWorkflow(before, row)
    ensures Reply(u, DispatchOf(limits, h, row)) == Execute(Pending, DeadlineFrom(before.timeoutMS, claim.dbNow))
  {
    FirstAttemptExecutes(u, limits, h, row);
  }

  lemma ResumedAndClaimed(t: Table, ids: set<string>, queue: string, claim: Op, id: string)
    requires id in t && id in ids && !Completed(t[id].status) && claim.Claim? && id in claim.ids
    ensures id in Next(Next(t, Resume(ids, queue)), claim)
    ensures Restarted(t[id], Next(Next(t, Resume(ids, queue)), claim)[id], queue, claim)
  {
    assert Next(t, Resume(ids, queue))[id] == NextRow(Resume(ids, queue), id, t[id]);
    ResumedRow(id, t[id], ids, queue, claim);
  }

  lemma FirstAttemptExecutes(t: Table, limits: Limits, h: Holder, row: Row)
    requires h.workflow in t && t[h.workflow].status.Pending? && t[h.workflow].attempts == 0 && SameWorkflow(t[h.workflow], row)
    ensures Reply(t, DispatchOf(limits, h, row)) == Execute(Pending, t[h.workflow].deadline)
  {
  }
}
