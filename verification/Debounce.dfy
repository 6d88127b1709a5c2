/** Debouncing: a delayed workflow that holds its debounce key is extended and given new inputs. */
module Debouncing {
  import opened Common
  import opened WorkflowStatus
  import opened StatusMachine

  datatype DebounceResult =
    | Bounced(id: string)
    | Unheld
    | Held(id: string, isDebounced: bool, name: string, className: string)

  datatype BounceAction = ReturnHandle | EnqueueFresh | Raise | RetryBounce

  function ClassifyBounce(r: DebounceResult, name: string, className: string): BounceAction {
    match r
    case Bounced(_) => ReturnHandle
    case Unheld => EnqueueFresh
    case Held(_, isDebounced, n, c) =>
      if !isDebounced then Raise
      else if n != name || c != className then Raise
      else RetryBounce
  }

  // The update's RETURNING row, or else the row that the lookup finds in the same state.
  predicate IsResult(t: Table, b: Bounce, r: DebounceResult) {
    match r
    case Bounced(id) => id in t && BounceMatches(b, t[id])
    case Unheld => forall id | id in t :: !HoldsSlot(t[id], b.queue, b.dedupId)
    case Held(id, d, n, c) =>
      && (forall j | j in t :: !BounceMatches(b, t[j]))
      && id in t && HoldsSlot(t[id], b.queue, b.dedupId)
      && d == t[id].isDebounced && n == t[id].name && c == t[id].className
  }

  predicate Extendable(t: Table, b: Bounce) {
    exists id :: id in t && BounceMatches(b, t[id])
  }

  predicate KeyFree(t: Table, b: Bounce) {
    forall id | id in t :: !HoldsSlot(t[id], b.queue, b.dedupId)
  }

  predicate ForeignHolder(row: Row, b: Bounce) {
    HoldsSlot(row, b.queue, b.dedupId) && (!row.isDebounced || row.name != b.name || row.className != b.className)
  }

  predicate KeyTaken(t: Table, b: Bounce) {
    exists id :: id in t && ForeignHolder(t[id], b)
  }

  /**
  When the update and the lookup see one state, no bounce is classified as a retry: a debounced holder of the
  same workflow is DELAYED, so the update would have matched it. The other three actions say exactly who holds the key.
  */
  lemma RetryImpossible(ops: seq<Op>, b: Bounce, r: DebounceResult)
    requires Trace(ops) && IsResult(Exec(map[], ops), b, r)
    ensures ClassifyBounce(r, b.name, b.className) != RetryBounce
    ensures ClassifyBounce(r, b.name, b.className) == ReturnHandle <==> Extendable(Exec(map[], ops), b)
    ensures ClassifyBounce(r, b.name, b.className) == EnqueueFresh <==> KeyFree(Exec(map[], ops), b)
    ensures ClassifyBounce(r, b.name, b.className) == Raise <==> KeyTaken(Exec(map[], ops), b)
  {
    ExecKeeps(map[], ops);
    HolderDecides(Exec(map[], ops), b, r);
  }

  lemma HolderDecides(t: Table, b: Bounce, r: DebounceResult)
    requires Inv(t) && IsResult(t, b, r)
    ensures ClassifyBounce(r, b.name, b.className) != RetryBounce
    ensures ClassifyBounce(r, b.name, b.className) == ReturnHandle <==> Extendable(t, b)
    ensures ClassifyBounce(r, b.name, b.className) == EnqueueFresh <==> KeyFree(t, b)
    ensures ClassifyBounce(r, b.name, b.className) == Raise <==> KeyTaken(t, b)
  {
    forall id | id in t && HoldsSlot(t[id], b.queue, b.dedupId)
      ensures BounceMatches(b, t[id]) <==> !ForeignHolder(t[id], b)
    {
      assert RowOk(t[id]);
    }
    forall i, j | i in t && j in t && HoldsSlot(t[i], b.queue, b.dedupId) && HoldsSlot(t[j], b.queue, b.dedupId)
      ensures i == j
    {
    }
    match r
    case Bounced(id) => assert HoldsSlot(t[id], b.queue, b.dedupId);
    case Unheld =>
    case Held(id, _, _, _) => assert ForeignHolder(t[id], b);
  }

  // ---------- The cap on the delay ----------

  // A `setWorkflowDelay` of this workflow, if it is one, asks for no more than the deadline allows.
  predicate DelayFits(op: Op, id: string, row: Row) {
    op.SetDelay? && op.id == id && row.status.Delayed? && row.isDebounced && row.debounceDeadline.Some? ==>
      op.delayUntil <= row.debounceDeadline.value
  }

  predicate DelaysFit(t: Table, ops: seq<Op>, id: string)
    decreases |ops|
  {
    |ops| == 0 || ((id in t ==> DelayFits(ops[0], id, t[id])) && DelaysFit(Next(t, ops[0]), ops[1..], id))
  }

  lemma RowKeepsCapExactly(op: Op, id: string, row: Row)
    requires CapRespected(row)
    ensures CapRespected(NextRow(op, id, row)) <==> DelayFits(op, id, row)
  {
  }

  lemma RowFixed(op: Op, id: string, row: Row)
    ensures NextRow(op, id, row).debounceDeadline == row.debounceDeadline && NextRow(op, id, row).isDebounced == row.isDebounced
    ensures !row.status.Delayed? ==> !NextRow(op, id, row).status.Delayed?
    ensures NextRow(op, id, row).inputs == if op.Debounce? && BounceMatches(op.bounce, row) then op.bounce.inputs else row.inputs
  {
  }

  /** No sequence of bounces, and no other operation within the cap, moves the wake-up of a debounced workflow past its deadline. */
  lemma {:induction false} DelayNeverPassesDeadline(t: Table, ops: seq<Op>, id: string)
    requires (id in t ==> CapRespected(t[id])) && Trace(ops) && DelaysFit(t, ops, id)
    ensures id in Exec(t, ops) ==> CapRespected(Exec(t, ops)[id])
    decreases |ops|
  {
    if |ops| > 0 {
      assert Enabled(ops[0]);
      if id in t {
        RowKeepsCapExactly(ops[0], id, t[id]);
      }
      DelayNeverPassesDeadline(Next(t, ops[0]), ops[1..], id);
    }
  }

  /** ... and that deadline is fixed: nothing changes it once the row exists. */
  lemma {:induction false} DeadlineIsFixed(t: Table, ops: seq<Op>, id: string)
    requires id in t
    ensures id in Exec(t, ops)
    ensures Exec(t, ops)[id].debounceDeadline == t[id].debounceDeadline && Exec(t, ops)[id].isDebounced == t[id].isDebounced
    decreases |ops|
  {
    if |ops| > 0 {
      RowFixed(ops[0], id, t[id]);
      DeadlineIsFixed(Next(t, ops[0]), ops[1..], id);
    }
  }

  /** `setWorkflowDelay` is not capped: it moves a debounced workflow past its deadline whenever it is asked to. */
  lemma SetDelayIgnoresDeadline(t: Table, id: string, delay: int)
    requires id in t && t[id].status.Delayed? && t[id].isDebounced && t[id].debounceDeadline.Some?
    ensures CapRespected(Next(t, SetDelay(id, delay))[id]) <==> delay <= t[id].debounceDeadline.value
  {
  }

  // ---------- The inputs that run ----------

  predicate Bounces(t: Table, op: Op, id: string) {
    op.Debounce? && id in t && BounceMatches(op.bounce, t[id])
  }

  // None of the operations is a successful bounce of this workflow.
  predicate NotBounced(t: Table, ops: seq<Op>, id: string)
    decreases |ops|
  {
    |ops| == 0 || (!Bounces(t, ops[0], id) && NotBounced(Next(t, ops[0]), ops[1..], id))
  }

  lemma {:induction false} InputsKeptWithoutBounce(t: Table, ops: seq<Op>, id: string)
    requires id in t && NotBounced(t, ops, id)
    ensures id in Exec(t, ops) && Exec(t, ops)[id].inputs == t[id].inputs
    decreases |ops|
  {
    if |ops| > 0 {
      RowFixed(ops[0], id, t[id]);
      InputsKeptWithoutBounce(Next(t, ops[0]), ops[1..], id);
    }
  }

  /** The stored inputs are those of the last successful bounce, whatever else happens before and after it. */
  lemma InputsOfLastBounce(t: Table, bounce: Bounce, after: seq<Op>, id: string)
    requires Bounces(t, Debounce(bounce), id) && NotBounced(Next(t, Debounce(bounce)), after, id)
    ensures var e := Exec(Next(t, Debounce(bounce)), after); id in e && e[id].inputs == bounce.inputs
  {
    RowFixed(Debounce(bounce), id, t[id]);
    InputsKeptWithoutBounce(Next(t, Debounce(bounce)), after, id);
  }

  /** A workflow that has left DELAYED never returns to it, so no bounce reaches it and its inputs are final. */
  lemma {:induction false} InputsFinalOnceReleased(t: Table, ops: seq<Op>, id: string)
    requires id in t && !t[id].status.Delayed?
    ensures id in Exec(t, ops) && !Exec(t, ops)[id].status.Delayed? && Exec(t, ops)[id].inputs == t[id].inputs
    decreases |ops|
  {
    if |ops| > 0 {
      RowFixed(ops[0], id, t[id]);
      InputsFinalOnceReleased(Next(t, ops[0]), ops[1..], id);
    }
  }
}
