/**
Overlapping dequeues of one queue (or partition) under PostgreSQL's REPEATABLE READ.

A dequeue reads a snapshot. Its SELECT ... FOR UPDATE locks the rows it returns and fails if one of them was changed
after the snapshot (first updater wins); with a concurrency limit it also fails if one is locked (NOWAIT), without one
it skips locked rows (SKIP LOCKED). Everything else commits between these steps, except changes to locked rows, which
wait. Dequeues of other queues and partitions appear as the claims that they commit.
*/
module SnapshotDequeue {
  import opened Common
  import opened WorkflowStatus
  import opened StatusMachine
  import Q = QueueDispatch

  // What the dequeuers of the queue have in common.
  datatype Config = Config(queue: Q.Queue, partition: Option<string>, version: string, isLatest: bool) {
    function Target(): Q.Scope {
      Q.Scope(queue.name, partition)
    }

    function Eligible(t: Table): set<string> {
      Q.EligibleIn(t, Target(), version, isLatest)
    }

    function Running(t: Table): set<string> {
      Q.PendingIn(t, Target())
    }

    predicate Mine(d: Q.Dequeue) {
      d.queue == queue && d.partition == partition && d.version == version && d.isLatest == isLatest && d.claimed == []
    }
  }

  // An open transaction: its snapshot, the rows that others changed since, and the rows it has locked.
  datatype Tx = Tx(d: Q.Dequeue, snap: Table, touched: set<string>, sel: Option<seq<string>>) {
    function Locked(): set<string> {
      if sel.Some? then Q.Ids(sel.value) else {}
    }

    function Claims(): seq<string>
      requires sel.Some?
    {
      sel.value[..d.Allowed(snap, |sel.value|)]
    }
  }

  datatype State = State(t: Table, open: map<nat, Tx>)

  datatype Event =
    | Begin(x: nat, d: Q.Dequeue)
    | Lock(x: nat, sel: seq<string>)
    | Commit(x: nat)
    | Abort(x: nat)
    | Other(op: Op)

  function Changed(t: Table, op: Op): set<string> {
    set id | id in t && Next(t, op)[id] != t[id]
  }

  // The rows locked by other transactions than x.
  function Barred(s: State, x: nat): set<string> {
    set y, id | y in s.open && y != x && id in s.open[y].Locked() :: id
  }

  // What the ordered SELECT may return to a transaction: rows of its snapshot, except those it skips.
  predicate Returns(c: Config, tx: Tx, skipped: set<string>, sel: seq<string>) {
    if tx.d.Refused(tx.snap) then sel == []
    else Q.IsSelection(tx.snap, c.Eligible(tx.snap) - skipped,
                       Q.MaxTasks(tx.d.queue, tx.d.localRunning, |Q.PendingIn(tx.snap, tx.d.Target())|), sel)
  }

  // With a concurrency limit, NOWAIT: nothing is skipped.
  function Skipped(c: Config, s: State, x: nat): set<string> {
    if c.queue.concurrency.Some? then {} else Barred(s, x)
  }

  predicate Possible(c: Config, s: State, ev: Event) {
    match ev
    case Begin(x, d) => x !in s.open && c.Mine(d)
    case Lock(x, sel) =>
      && x in s.open && s.open[x].sel.None? && Returns(c, s.open[x], Skipped(c, s, x), sel)
      && Q.Ids(sel) !! s.open[x].touched && Q.Ids(sel) !! Barred(s, x)
    case Commit(x) => x in s.open && s.open[x].sel.Some?
    case Abort(x) => x in s.open
    case Other(op) =>
      && Enabled(op)
      && (op.Claim? ==> forall id | id in op.ids && id in s.t :: !Q.InScope(s.t[id], c.Target()))
      && (forall x | x in s.open :: s.open[x].Locked() !! Changed(s.t, op))
  }

  function Touch(open: map<nat, Tx>, ids: set<string>): map<nat, Tx> {
    map x | x in open :: open[x].(touched := open[x].touched + ids)
  }

  // The update that x commits.
  function Update(tx: Tx): Op
    requires tx.sel.Some?
  {
    tx.d.(claimed := tx.Claims()).Update()
  }

  function NextState(c: Config, s: State, ev: Event): State
    requires Possible(c, s, ev)
  {
    match ev
    case Begin(x, d) => s.(open := s.open[x := Tx(d, s.t, {}, None)])
    case Lock(x, sel) => s.(open := s.open[x := s.open[x].(sel := Some(sel))])
    case Commit(x) => State(Next(s.t, Update(s.open[x])), Touch(s.open - {x}, Q.Ids(s.open[x].Claims())))
    case Abort(x) => s.(open := s.open - {x})
    case Other(op) => State(Next(s.t, op), Touch(s.open, Changed(s.t, op)))
  }

  predicate History(c: Config, s: State, evs: seq<Event>)
    decreases |evs|
  {
    |evs| == 0 || (Possible(c, s, evs[0]) && History(c, NextState(c, s, evs[0]), evs[1..]))
  }

  function Run(c: Config, s: State, evs: seq<Event>): State
    requires History(c, s, evs)
    decreases |evs|
  {
    if |evs| == 0 then s else Run(c, NextState(c, s, evs[0]), evs[1..])
  }

  // ---------- What is kept ----------

  // Rows that nobody changed are as in the snapshot; the locked ones are among them.
  ghost predicate TxOk(t: Table, tx: Tx) {
    && (forall id | id in tx.snap && id !in tx.touched :: id in t && t[id] == tx.snap[id])
    && tx.Locked() !! tx.touched
  }

  ghost predicate Ok(c: Config, s: State) {
    && (forall x | x in s.open :: c.Mine(s.open[x].d) && TxOk(s.t, s.open[x]))
    && (forall x, y | x in s.open && y in s.open && x != y :: s.open[x].Locked() !! s.open[y].Locked())
  }

  // A change of some rows, none of them locked by tx, reported to tx.
  lemma TouchedOk(t: Table, t': Table, tx: Tx, ids: set<string>)
    requires TxOk(t, tx) && ids !! tx.Locked()
    requires forall id | id in t && id !in ids :: id in t' && t'[id] == t[id]
    ensures TxOk(t', tx.(touched := tx.touched + ids))
  {
    var tx' := tx.(touched := tx.touched + ids);
    assert tx'.Locked() == tx.Locked();
  }

  lemma ClaimsLocked(tx: Tx)
    requires tx.sel.Some?
    ensures Q.Ids(tx.Claims()) <= tx.Locked()
  {
  }

  lemma CommitChanges(t: Table, tx: Tx)
    requires tx.sel.Some?
    ensures forall id | id in t && id !in Q.Ids(tx.Claims()) :: id in Next(t, Update(tx)) && Next(t, Update(tx))[id] == t[id]
  {
    forall id | id in t && id !in Q.Ids(tx.Claims()) ensures Next(t, Update(tx))[id] == t[id] {
      Q.ClaimedRow(Update(tx), id, t[id]);
    }
  }

  lemma CommitKeeps(c: Config, s: State, x: nat)
    requires Ok(c, s) && Possible(c, s, Commit(x))
    ensures Ok(c, NextState(c, s, Commit(x)))
  {
    var s', tx := NextState(c, s, Commit(x)), s.open[x];
    CommitChanges(s.t, tx);
    ClaimsLocked(tx);
    forall y | y in s'.open ensures TxOk(s'.t, s'.open[y]) && s'.open[y].Locked() == s.open[y].Locked() {
      TouchedOk(s.t, s'.t, s.open[y], Q.Ids(tx.Claims()));
    }
  }

  lemma OtherKeeps(c: Config, s: State, op: Op)
    requires Ok(c, s) && Possible(c, s, Other(op))
    ensures Ok(c, NextState(c, s, Other(op)))
  {
    var s' := NextState(c, s, Other(op));
    forall y | y in s'.open ensures TxOk(s'.t, s'.open[y]) && s'.open[y].Locked() == s.open[y].Locked() {
      TouchedOk(s.t, s'.t, s.open[y], Changed(s.t, op));
    }
  }

  lemma NotBarred(s: State, x: nat, y: nat, ids: set<string>)
    requires y in s.open && y != x && ids !! Barred(s, x)
    ensures s.open[y].Locked() !! ids
  {
    forall id | id in s.open[y].Locked() ensures id !in ids {
      assert id in Barred(s, x);
    }
  }

  lemma LockKeeps(c: Config, s: State, x: nat, sel: seq<string>)
    requires Ok(c, s) && Possible(c, s, Lock(x, sel))
    ensures Ok(c, NextState(c, s, Lock(x, sel)))
  {
    forall y | y in s.open && y != x ensures s.open[y].Locked() !! Q.Ids(sel) {
      NotBarred(s, x, y, Q.Ids(sel));
    }
    LockOk(c, s, x, sel);
  }

  lemma LockOk(c: Config, s: State, x: nat, sel: seq<string>)
    requires Ok(c, s) && x in s.open && Q.Ids(sel) !! s.open[x].touched
    requires forall y | y in s.open && y != x :: s.open[y].Locked() !! Q.Ids(sel)
    ensures Ok(c, s.(open := s.open[x := s.open[x].(sel := Some(sel))]))
  {
    assert s.open[x].(sel := Some(sel)).Locked() == Q.Ids(sel);
  }

  lemma EventKeeps(c: Config, s: State, ev: Event)
    requires Ok(c, s) && Possible(c, s, ev)
    ensures Ok(c, NextState(c, s, ev))
  {
    match ev
    case Begin(_, _) =>
    case Lock(x, sel) => LockKeeps(c, s, x, sel);
    case Commit(x) => CommitKeeps(c, s, x);
    case Abort(_) =>
    case Other(op) => OtherKeeps(c, s, op);
  }

  // ---------- Claims never overlap ----------

  predicate StaysOpen(y: nat, evs: seq<Event>) {
    forall i | 0 <= i < |evs| :: evs[i] != Commit(y) && evs[i] != Abort(y)
  }

  lemma TouchGrows(c: Config, s: State, ev: Event, y: nat)
    requires Possible(c, s, ev) && y in s.open && ev != Commit(y) && ev != Abort(y)
    ensures var s' := NextState(c, s, ev);
            y in s'.open && s.open[y].touched <= s'.open[y].touched && s'.open[y].snap == s.open[y].snap && s'.open[y].d == s.open[y].d
  {
  }

  lemma {:induction false} TouchedForever(c: Config, s: State, evs: seq<Event>, y: nat)
    requires Ok(c, s) && History(c, s, evs) && y in s.open && StaysOpen(y, evs)
    ensures var e := Run(c, s, evs);
            && Ok(c, e) && y in e.open && s.open[y].touched <= e.open[y].touched && e.open[y].snap == s.open[y].snap
            && e.open[y].d == s.open[y].d
    decreases |evs|
  {
    if |evs| > 0 {
      assert evs[0] != Commit(y) && evs[0] != Abort(y);
      EventKeeps(c, s, evs[0]);
      TouchGrows(c, s, evs[0], y);
      TouchedForever(c, NextState(c, s, evs[0]), evs[1..], y);
    }
  }

  /** Two transactions that overlap and both commit claim different rows, whatever the lock mode. */
  lemma OverlappingClaimsDisjoint(c: Config, s: State, x: nat, y: nat, evs: seq<Event>)
    requires Ok(c, s) && x != y && y in s.open && Possible(c, s, Commit(x))
    requires History(c, NextState(c, s, Commit(x)), evs) && StaysOpen(y, evs)
    requires Possible(c, Run(c, NextState(c, s, Commit(x)), evs), Commit(y))
    ensures Q.Ids(s.open[x].Claims()) !! Q.Ids(Run(c, NextState(c, s, Commit(x)), evs).open[y].Claims())
  {
    var s1 := NextState(c, s, Commit(x));
    CommitKeeps(c, s, x);
    TouchedForever(c, s1, evs, y);
    var ty := Run(c, s1, evs).open[y];
    ClaimsLocked(ty);
    assert Q.Ids(s.open[x].Claims()) <= s1.open[y].touched;
  }

  // ---------- The limit under snapshots ----------

  predicate StrictlyBefore(a: Row, b: Row) {
    Q.Before(a, b) && !Q.Before(b, a)
  }

  // The one row that every ordered selection of the table begins with.
  predicate IsFirst(c: Config, t: Table, f: string) {
    f in c.Eligible(t) && forall e | e in c.Eligible(t) && e != f :: StrictlyBefore(t[f], t[e])
  }

  ghost predicate NoTieForFirst(c: Config, t: Table) {
    c.Eligible(t) == {} || exists f :: IsFirst(c, t, f)
  }

  predicate Unchanged(t: Table, t': Table, id: string) {
    id in t && id in t' && t'[id] == t[id]
  }

  // Whatever it selects, the transaction claims nothing: its snapshot has no row for it, or its limits leave no room.
  predicate Harmless(c: Config, tx: Tx) {
    c.Eligible(tx.snap) == {} || tx.d.Refused(tx.snap)
  }

  // Rows that become eligible, or change while they are, come behind the first row that the transaction has seen.
  ghost predicate Behind(c: Config, t: Table, t': Table, tx: Tx) {
    forall f, n | f !in tx.touched && IsFirst(c, tx.snap, f) && Unchanged(t, t', f) && n in c.Eligible(t') && n != f && !Unchanged(t, t', n) ::
      StrictlyBefore(t[f], t'[n])
  }

  // Nobody overtakes the first row of an open dequeue.
  ghost predicate NotOvertaken(c: Config, s: State, t': Table) {
    forall x | x in s.open :: Harmless(c, s.open[x]) || Behind(c, s.t, t', s.open[x])
  }

  ghost predicate OrderlyEvent(c: Config, s: State, ev: Event)
  {
    match ev
    case Begin(_, d) => d.Refused(s.t) || NoTieForFirst(c, s.t)
    case Other(op) => NotOvertaken(c, s, Next(s.t, op))
    case _ => true
  }

  ghost predicate Orderly(c: Config, s: State, evs: seq<Event>)
    requires History(c, s, evs)
    decreases |evs|
  {
    |evs| == 0 || (OrderlyEvent(c, s, evs[0]) && Orderly(c, NextState(c, s, evs[0]), evs[1..]))
  }

  // Nobody has claimed since the snapshot, and the first row is still the first.
  ghost predicate Current(c: Config, t: Table, tx: Tx, f: string) {
    f !in tx.touched && IsFirst(c, t, f) && c.Running(t) <= c.Running(tx.snap)
  }

  // A transaction can claim nothing, or must fail, or is current.
  ghost predicate Judged(c: Config, t: Table, tx: Tx) {
    || Harmless(c, tx)
    || exists f :: IsFirst(c, tx.snap, f) && (f in tx.touched || Current(c, t, tx, f))
  }

  ghost predicate Lawful(c: Config, tx: Tx) {
    tx.sel.Some? ==> Returns(c, tx, {}, tx.sel.value)
  }

  ghost predicate Sound(c: Config, limit: nat, s: State) {
    && Ok(c, s) && c.queue.concurrency == Some(limit) && |c.Running(s.t)| <= limit
    && forall x | x in s.open :: Lawful(c, s.open[x]) && Judged(c, s.t, s.open[x])
  }

  lemma StartsLowest(t: Table, eligible: set<string>, limit: Option<nat>, sel: seq<string>, f: string)
    requires eligible <= t.Keys && Q.IsSelection(t, eligible, limit, sel) && |sel| > 0 && f in eligible
    ensures sel[0] in eligible && Q.Before(t[sel[0]], t[f])
  {
    assert sel[0] in Q.Ids(sel);
    if f in sel {
      var i :| 0 <= i < |sel| && sel[i] == f;
    } else {
      assert f in eligible - Q.Ids(sel);
    }
  }

  lemma SelectionStarts(t: Table, eligible: set<string>, limit: Option<nat>, sel: seq<string>, f: string)
    requires eligible <= t.Keys && Q.IsSelection(t, eligible, limit, sel) && |sel| > 0 && f in eligible
    requires forall e | e in eligible && e != f :: StrictlyBefore(t[f], t[e])
    ensures sel[0] == f
  {
    StartsLowest(t, eligible, limit, sel, f);
  }

  lemma SelectsFirst(c: Config, tx: Tx, f: string)
    requires tx.sel.Some? && Lawful(c, tx) && |tx.Claims()| > 0 && IsFirst(c, tx.snap, f)
    ensures f in Q.Ids(tx.Claims()) && f in tx.Locked()
  {
    var sel := tx.sel.value;
    SelectionStarts(tx.snap, c.Eligible(tx.snap) - {},
                    Q.MaxTasks(tx.d.queue, tx.d.localRunning, |Q.PendingIn(tx.snap, tx.d.Target())|), sel, f);
    assert tx.Claims()[0] == sel[0];
  }

  lemma NothingToSelect(c: Config, tx: Tx)
    requires tx.sel.Some? && Lawful(c, tx) && Harmless(c, tx)
    ensures tx.Claims() == []
  {
    assert c.Eligible(tx.snap) == {} ==> c.Eligible(tx.snap) - {} == {};
  }

  /** A transaction that claims something is current. */
  lemma ClaimantIsCurrent(c: Config, t: Table, tx: Tx) returns (f: string)
    requires tx.sel.Some? && Lawful(c, tx) && Judged(c, t, tx) && tx.Locked() !! tx.touched && |tx.Claims()| > 0
    ensures IsFirst(c, tx.snap, f) && Current(c, t, tx, f) && f in Q.Ids(tx.Claims())
  {
    if Harmless(c, tx) {
      NothingToSelect(c, tx);
      assert false;
    }
    f :| IsFirst(c, tx.snap, f) && (f in tx.touched || Current(c, t, tx, f));
    SelectsFirst(c, tx, f);
  }

  // A commit adds at most its claims to the running rows.
  lemma CommitRunning(c: Config, t: Table, tx: Tx)
    requires tx.sel.Some?
    ensures c.Running(Next(t, Update(tx))) <= c.Running(t) + Q.Ids(tx.Claims())
  {
    CommitChanges(t, tx);
    assert Next(t, Update(tx)).Keys == t.Keys;
  }

  lemma ClaimsFit(c: Config, limit: nat, t: Table, tx: Tx)
    requires tx.sel.Some? && Lawful(c, tx) && c.Mine(tx.d) && c.queue.concurrency == Some(limit) && |tx.Claims()| > 0
    requires c.Running(t) <= c.Running(tx.snap)
    ensures |c.Running(t) + Q.Ids(tx.Claims())| <= limit
  {
    ClaimsLegal(c, tx);
    Q.ClaimsBounded(tx.d.(claimed := tx.Claims()), tx.snap);
    SubsetSize(c.Running(t), c.Running(tx.snap));
    Q.IdsSize(tx.Claims());
    Q.UnionSize(c.Running(t), Q.Ids(tx.Claims()));
  }

  lemma CommitLimit(c: Config, limit: nat, t: Table, tx: Tx)
    requires tx.sel.Some? && Lawful(c, tx) && c.Mine(tx.d) && Judged(c, t, tx) && TxOk(t, tx)
    requires c.queue.concurrency == Some(limit) && |c.Running(t)| <= limit
    ensures |c.Running(Next(t, Update(tx)))| <= limit
  {
    if |tx.Claims()| == 0 {
      CommitNothing(c, t, tx);
    } else {
      var f := ClaimantIsCurrent(c, t, tx);
      ClaimsFit(c, limit, t, tx);
      CommitRunning(c, t, tx);
      SubsetSize(c.Running(Next(t, Update(tx))), c.Running(t) + Q.Ids(tx.Claims()));
    }
  }

  lemma ClaimsLegal(c: Config, tx: Tx)
    requires tx.sel.Some? && Lawful(c, tx) && c.Mine(tx.d) && |tx.Claims()| > 0
    ensures tx.d.(claimed := tx.Claims()).Legal(tx.snap)
  {
    var d := tx.d.(claimed := tx.Claims());
    assert c.Eligible(tx.snap) - {} == c.Eligible(tx.snap);
    assert d.Selects(tx.snap, tx.sel.value) && d.claimed == tx.sel.value[..d.Allowed(tx.snap, |tx.sel.value|)];
  }

  // ---------- How the other transactions are judged afterwards ----------

  // A committed claim took the first row of everybody.
  lemma ClaimSpendsOthers(c: Config, t: Table, tx: Tx, ty: Tx)
    requires tx.sel.Some? && Lawful(c, tx) && Judged(c, t, tx) && TxOk(t, tx) && Judged(c, t, ty) && |tx.Claims()| > 0
    ensures Spent(c, ty.(touched := ty.touched + Q.Ids(tx.Claims())))
  {
    var ty' := ty.(touched := ty.touched + Q.Ids(tx.Claims()));
    if !Harmless(c, ty) {
      var f := ClaimantIsCurrent(c, t, tx);
      var g :| IsFirst(c, ty.snap, g) && (g in ty.touched || Current(c, t, ty, g));
      assert IsFirst(c, ty'.snap, g) && g in ty'.touched;
    }
  }

  lemma StillJudgedAfterCommit(c: Config, t: Table, tx: Tx, ty: Tx)
    requires tx.sel.Some? && Lawful(c, tx) && Judged(c, t, tx) && TxOk(t, tx) && Judged(c, t, ty)
    ensures Judged(c, Next(t, Update(tx)), ty.(touched := ty.touched + Q.Ids(tx.Claims())))
  {
    if |tx.Claims()| > 0 {
      ClaimSpendsOthers(c, t, tx, ty);
    } else {
      CommitNothing(c, t, tx);
      assert ty.(touched := ty.touched + Q.Ids(tx.Claims())) == ty;
    }
  }

  // It can claim nothing any more.
  ghost predicate Spent(c: Config, tx: Tx) {
    Harmless(c, tx) || exists f :: IsFirst(c, tx.snap, f) && f in tx.touched
  }

  lemma CommitNothing(c: Config, t: Table, tx: Tx)
    requires tx.sel.Some? && |tx.Claims()| == 0
    ensures Next(t, Update(tx)) == t
  {
    CommitChanges(t, tx);
    assert Next(t, Update(tx)).Keys == t.Keys;
  }

  lemma OtherRunning(c: Config, t: Table, op: Op)
    requires Enabled(op) && (op.Claim? ==> forall id | id in op.ids && id in t :: !Q.InScope(t[id], c.Target()))
    ensures c.Running(Next(t, op)) <= c.Running(t)
  {
    if op.Claim? {
      forall id | id in c.Running(Next(t, op)) ensures id in c.Running(t) {
        Q.ClaimedRow(op, id, t[id]);
      }
    } else {
      Q.PlainShrinksPending(t, op, c.Target());
    }
  }

  lemma StillFirst(c: Config, t: Table, t': Table, tx: Tx, f: string)
    requires Behind(c, t, t', tx) && f !in tx.touched && IsFirst(c, tx.snap, f) && IsFirst(c, t, f) && Unchanged(t, t', f)
    ensures IsFirst(c, t', f)
  {
    forall e | e in c.Eligible(t') && e != f ensures StrictlyBefore(t'[f], t'[e]) {
      if Unchanged(t, t', e) {
        assert e in c.Eligible(t);
      }
    }
  }

  lemma StillJudgedAfterOther(c: Config, t: Table, op: Op, tx: Tx)
    requires Judged(c, t, tx) && (Harmless(c, tx) || Behind(c, t, Next(t, op), tx)) && Enabled(op)
    requires op.Claim? ==> forall id | id in op.ids && id in t :: !Q.InScope(t[id], c.Target())
    ensures Judged(c, Next(t, op), tx.(touched := tx.touched + Changed(t, op)))
  {
    var tx' := tx.(touched := tx.touched + Changed(t, op));
    if !Harmless(c, tx) {
      var f :| IsFirst(c, tx.snap, f) && (f in tx.touched || Current(c, t, tx, f));
      assert IsFirst(c, tx'.snap, f);
      if f !in tx'.touched {
        StillFirst(c, t, Next(t, op), tx, f);
        OtherRunning(c, t, op);
        assert Current(c, Next(t, op), tx', f);
      }
    }
  }

  lemma OrderlyKeeps(c: Config, limit: nat, s: State, ev: Event)
    requires Sound(c, limit, s) && Possible(c, s, ev) && OrderlyEvent(c, s, ev)
    ensures Sound(c, limit, NextState(c, s, ev))
  {
    EventKeeps(c, s, ev);
    match ev
    case Begin(x, d) => BeginKeeps(c, limit, s, x, d);
    case Lock(x, sel) => LockSound(c, limit, s, x, sel);
    case Commit(x) => CommitSound(c, limit, s, x);
    case Abort(_) =>
    case Other(op) => OtherSound(c, limit, s, op);
  }

  lemma BeginKeeps(c: Config, limit: nat, s: State, x: nat, d: Q.Dequeue)
    requires Sound(c, limit, s) && Possible(c, s, Begin(x, d)) && OrderlyEvent(c, s, Begin(x, d)) && Ok(c, NextState(c, s, Begin(x, d)))
    ensures Sound(c, limit, NextState(c, s, Begin(x, d)))
  {
    var tx := Tx(d, s.t, {}, None);
    if !Harmless(c, tx) {
      var f :| IsFirst(c, s.t, f);
      assert Current(c, s.t, tx, f);
    }
    assert Judged(c, s.t, tx);
  }

  lemma LockSound(c: Config, limit: nat, s: State, x: nat, sel: seq<string>)
    requires Sound(c, limit, s) && Possible(c, s, Lock(x, sel)) && Ok(c, NextState(c, s, Lock(x, sel)))
    ensures Sound(c, limit, NextState(c, s, Lock(x, sel)))
  {
    var tx := s.open[x];
    LockJudged(c, s.t, tx, sel);
    assert Lawful(c, tx.(sel := Some(sel)));
  }

  lemma LockJudged(c: Config, t: Table, tx: Tx, sel: seq<string>)
    requires Judged(c, t, tx)
    ensures Judged(c, t, tx.(sel := Some(sel)))
  {
    if !Harmless(c, tx) {
      var f :| IsFirst(c, tx.snap, f) && (f in tx.touched || Current(c, t, tx, f));
      assert f in tx.touched || Current(c, t, tx.(sel := Some(sel)), f);
    }
  }

  lemma CommitSound(c: Config, limit: nat, s: State, x: nat)
    requires Sound(c, limit, s) && Possible(c, s, Commit(x)) && Ok(c, NextState(c, s, Commit(x)))
    ensures Sound(c, limit, NextState(c, s, Commit(x)))
  {
    var s' := NextState(c, s, Commit(x));
    CommitLimit(c, limit, s.t, s.open[x]);
    forall y | y in s'.open ensures Lawful(c, s'.open[y]) && Judged(c, s'.t, s'.open[y]) {
      StillJudgedAfterCommit(c, s.t, s.open[x], s.open[y]);
    }
  }

  lemma OtherSound(c: Config, limit: nat, s: State, op: Op)
    requires Sound(c, limit, s) && Possible(c, s, Other(op)) && NotOvertaken(c, s, Next(s.t, op)) && Ok(c, NextState(c, s, Other(op)))
    ensures Sound(c, limit, NextState(c, s, Other(op)))
  {
    var s' := NextState(c, s, Other(op));
    OtherRunning(c, s.t, op);
    SubsetSize(c.Running(s'.t), c.Running(s.t));
    forall y | y in s'.open ensures Lawful(c, s'.open[y]) && Judged(c, s'.t, s'.open[y]) {
      StillJudgedAfterOther(c, s.t, op, s.open[y]);
    }
  }

  lemma FirstIsOne(c: Config, t: Table, f: string, g: string)
    requires IsFirst(c, t, f) && IsFirst(c, t, g)
    ensures f == g
  {
  }

  lemma JudgedMeansBehind(c: Config, t: Table, op: Op, tx: Tx)
    requires !Harmless(c, tx) && Judged(c, Next(t, op), tx.(touched := tx.touched + Changed(t, op)))
    ensures Behind(c, t, Next(t, op), tx)
  {
    var t', tx' := Next(t, op), tx.(touched := tx.touched + Changed(t, op));
    assert tx'.snap == tx.snap && tx'.d == tx.d;
    var g :| IsFirst(c, tx.snap, g) && (g in tx'.touched || Current(c, t', tx', g));
    forall f, n | f !in tx.touched && IsFirst(c, tx.snap, f) && Unchanged(t, t', f) && n in c.Eligible(t') && n != f && !Unchanged(t, t', n)
      ensures StrictlyBefore(t[f], t'[n])
    {
      FirstIsOne(c, tx.snap, f, g);
    }
  }

  lemma SoundMeansNotOvertaken(c: Config, limit: nat, s: State, op: Op)
    requires Possible(c, s, Other(op)) && Sound(c, limit, NextState(c, s, Other(op)))
    ensures NotOvertaken(c, s, Next(s.t, op))
  {
    var s' := NextState(c, s, Other(op));
    forall x | x in s.open && !Harmless(c, s.open[x]) ensures Behind(c, s.t, Next(s.t, op), s.open[x]) {
      assert s'.open[x] == s.open[x].(touched := s.open[x].touched + Changed(s.t, op));
      JudgedMeansBehind(c, s.t, op, s.open[x]);
    }
  }

  /**
  The exact condition on what others commit: they leave every open dequeue judged, exactly when no row overtakes the
  first row of one that could still claim. With no dequeue open anything goes.
  */
  lemma OtherSoundExactly(c: Config, limit: nat, s: State, op: Op)
    requires Sound(c, limit, s) && Possible(c, s, Other(op))
    ensures Sound(c, limit, NextState(c, s, Other(op))) <==> NotOvertaken(c, s, Next(s.t, op))
  {
    if NotOvertaken(c, s, Next(s.t, op)) {
      EventKeeps(c, s, Other(op));
      OtherSound(c, limit, s, op);
    } else if Sound(c, limit, NextState(c, s, Other(op))) {
      SoundMeansNotOvertaken(c, limit, s, op);
    }
  }

  /**
  Snapshot dequeues keep the global limit, in every interleaving in which no row overtakes the first row of a dequeue
  that is open, and no dequeue begins with a tie for the first place.
  */
  lemma {:induction false} LimitHoldsUnderSnapshots(c: Config, limit: nat, s: State, evs: seq<Event>)
    requires Sound(c, limit, s) && History(c, s, evs) && Orderly(c, s, evs)
    ensures Sound(c, limit, Run(c, s, evs)) && |c.Running(Run(c, s, evs).t)| <= limit
    decreases |evs|
  {
    if |evs| > 0 {
      OrderlyKeeps(c, limit, s, evs[0]);
      LimitHoldsUnderSnapshots(c, limit, NextState(c, s, evs[0]), evs[1..]);
    }
  }

  /** ... and of two overlapping dequeues at most one commits a claim. */
  lemma OverlappingDequeuesExclude(c: Config, limit: nat, s: State, x: nat, y: nat, evs: seq<Event>)
    requires Sound(c, limit, s) && x != y && y in s.open && Possible(c, s, Commit(x)) && |s.open[x].Claims()| > 0
    requires var s1 := NextState(c, s, Commit(x));
             && History(c, s1, evs) && Orderly(c, s1, evs) && StaysOpen(y, evs) && Possible(c, Run(c, s1, evs), Commit(y))
    ensures Run(c, NextState(c, s, Commit(x)), evs).open[y].Claims() == []
  {
    var s1 := NextState(c, s, Commit(x));
    CommitSpends(c, limit, s, x, y);
    LimitHoldsUnderSnapshots(c, limit, s1, evs);
    TouchedForever(c, s1, evs, y);
    SpentClaimsNothing(c, s1.open[y], Run(c, s1, evs).open[y]);
  }

  lemma CommitSpends(c: Config, limit: nat, s: State, x: nat, y: nat)
    requires Sound(c, limit, s) && x != y && y in s.open && Possible(c, s, Commit(x)) && |s.open[x].Claims()| > 0
    ensures var s1 := NextState(c, s, Commit(x)); Sound(c, limit, s1) && y in s1.open && Spent(c, s1.open[y])
  {
    OrderlyKeeps(c, limit, s, Commit(x));
    ClaimSpendsOthers(c, s.t, s.open[x], s.open[y]);
  }

  lemma SpentClaimsNothing(c: Config, ty: Tx, later: Tx)
    requires Spent(c, ty) && later.snap == ty.snap && later.d == ty.d && ty.touched <= later.touched
    requires later.sel.Some? && Lawful(c, later) && later.Locked() !! later.touched
    ensures later.Claims() == []
  {
    if Harmless(c, ty) {
      NothingToSelect(c, later);
    } else if |later.Claims()| > 0 {
      var f :| IsFirst(c, ty.snap, f) && f in ty.touched;
      SelectsFirst(c, later, f);
    }
  }

  // ---------- Two dequeues ----------

  lemma Unfold(c: Config, s: State, ev: Event, rest: seq<Event>)
    requires Possible(c, s, ev) && History(c, NextState(c, s, ev), rest)
    ensures History(c, s, [ev] + rest) && Run(c, s, [ev] + rest) == Run(c, NextState(c, s, ev), rest)
  {
    assert ([ev] + rest)[1..] == rest;
  }

  // A row that waits in the queue.
  function WaitingRow(c: Config, priority: int): Row {
    Row(Enqueued, "w", "", "", Some(c.queue.name), c.partition, priority, "", Some(c.version), 0, 0, None, None, "", None,
        None, None, None, None, false, None, None, false)
  }

  function Dequeuer(c: Config): Q.Dequeue {
    Q.Dequeue(c.queue, c.partition, "e", c.version, c.isLatest, 0, 0, 0, [])
  }

  // Both transactions have room for one row and nobody is in their way.
  predicate ReadyForOne(c: Config, s: State, x: nat, f: string) {
    && x in s.open && s.open[x].sel.None? && IsFirst(c, s.open[x].snap, f) && f !in s.open[x].touched && f !in Barred(s, x)
    && !s.open[x].d.Refused(s.open[x].snap)
    && Q.MaxTasks(s.open[x].d.queue, s.open[x].d.localRunning, |Q.PendingIn(s.open[x].snap, s.open[x].d.Target())|) == Some(1)
  }

  lemma FirstIsSelection(t: Table, eligible: set<string>, f: string)
    requires eligible <= t.Keys && f in eligible && forall e | e in eligible && e != f :: StrictlyBefore(t[f], t[e])
    ensures Q.IsSelection(t, eligible, Some(1), [f])
  {
    assert Q.Ids([f]) == {f};
    SubsetSize({f}, eligible);
  }

  lemma ReadyCanLock(c: Config, s: State, x: nat, f: string)
    requires c.queue.concurrency.Some? && ReadyForOne(c, s, x, f)
    ensures Possible(c, s, Lock(x, [f]))
  {
    var tx := s.open[x];
    assert Q.Ids([f]) == {f};
    assert c.Eligible(tx.snap) - {} == c.Eligible(tx.snap);
    FirstIsSelection(tx.snap, c.Eligible(tx.snap), f);
  }

  lemma BarredAfterLock(s: State, x: nat, y: nat, f: string, s': State)
    requires x in s.open && y in s.open && x != y && s.open[x].sel.None? && s' == s.(open := s.open[x := s.open[x].(sel := Some([f]))])
    ensures Barred(s', y) == Barred(s, y) + {f}
  {
    assert s'.open[x].Locked() == {f};
    forall id ensures id in Barred(s', y) <==> id in Barred(s, y) || id == f {
      if id in Barred(s, y) {
        var z :| z in s.open && z != y && id in s.open[z].Locked();
        assert z in s'.open && id in s'.open[z].Locked();
      }
      if id == f {
        assert id in s'.open[x].Locked();
      }
    }
  }

  /**
  Two overlapping dequeues with room for one row each can both lock a row, and so both commit a claim, exactly when
  their snapshots begin with different rows.
  */
  lemma TwoDequeuesLockExactly(c: Config, s: State, x: nat, y: nat, f: string, g: string)
    requires c.queue.concurrency.Some? && x != y && ReadyForOne(c, s, x, f) && ReadyForOne(c, s, y, g)
    ensures Possible(c, s, Lock(x, [f]))
    ensures Possible(c, NextState(c, s, Lock(x, [f])), Lock(y, [g])) <==> f != g
  {
    ReadyCanLock(c, s, x, f);
    var s' := NextState(c, s, Lock(x, [f]));
    BarredAfterLock(s, x, y, f, s');
    assert Q.Ids([g]) == {g};
    if f != g {
      assert ReadyForOne(c, s', y, g);
      ReadyCanLock(c, s', y, g);
    }
  }
}
