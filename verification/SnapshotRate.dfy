/**
The rate limit under overlapping snapshot dequeues.

With a global limit the dequeues select with NOWAIT, so that at most one of those that overlap commits a claim; the one
that does has counted every start that still counts.
*/
module SnapshotRate {
  import opened Common
  import opened WorkflowStatus
  import opened StatusMachine
  import opened SnapshotDequeue
  import Q = QueueDispatch

  predicate StampedIn(c: Config, row: Row) {
    Q.InScope(row, c.Target()) && row.startedAt.Some?
  }

  // The row was started, and counted as started, in the snapshot already.
  predicate WasStarted(c: Config, snap: Table, id: string, row: Row) {
    && id in snap && StampedIn(c, snap[id]) && !Waiting(snap[id].status)
    && snap[id].startedAt == row.startedAt && snap[id].rateLimited == row.rateLimited
  }

  // Nothing has started since the snapshot.
  predicate NoStartsSince(c: Config, t: Table, snap: Table) {
    forall id | id in t && StampedIn(c, t[id]) :: WasStarted(c, snap, id, t[id])
  }

  ghost predicate Counted(c: Config, t: Table, tx: Tx) {
    Spent(c, tx) || NoStartsSince(c, t, tx.snap)
  }

  ghost predicate RateSound(c: Config, limit: nat, rate: Q.RateLimit, s: State) {
    && Sound(c, limit, s) && Inv(s.t) && c.queue.rateLimit == Some(rate) && Q.WindowsOk(s.t, c.Target(), rate)
    && forall x | x in s.open :: Counted(c, s.t, s.open[x])
  }

  // ---------- A commit ----------

  lemma ClaimantNotSpent(c: Config, tx: Tx)
    requires tx.sel.Some? && Lawful(c, tx) && tx.Locked() !! tx.touched && |tx.Claims()| > 0
    ensures !Spent(c, tx)
  {
    if Harmless(c, tx) {
      NothingToSelect(c, tx);
    } else if f :| IsFirst(c, tx.snap, f) && f in tx.touched {
      SelectsFirst(c, tx, f);
    }
  }

  // The starts that still count at a later instant were counted in the snapshot.
  lemma WindowCounted(c: Config, t: Table, tx: Tx, period: int, hi: int)
    requires NoStartsSince(c, t, tx.snap) && tx.d.now <= hi && c.Mine(tx.d)
    ensures Q.Window(t, c.Target(), period, hi) <= Q.RecentIn(tx.snap, tx.d.Target(), tx.d.now - period)
  {
    forall id | id in Q.Window(t, c.Target(), period, hi) ensures id in Q.RecentIn(tx.snap, tx.d.Target(), tx.d.now - period) {
      assert WasStarted(c, tx.snap, id, t[id]);
    }
  }

  lemma CommitStamps(t: Table, tx: Tx, id: string)
    requires tx.sel.Some? && id in t
    ensures id in Next(t, Update(tx))
    ensures id !in Q.Ids(tx.Claims()) || !t[id].status.Enqueued? ==> Next(t, Update(tx))[id] == t[id]
    ensures id in Q.Ids(tx.Claims()) && t[id].status.Enqueued? ==> Next(t, Update(tx))[id].startedAt == Some(tx.d.now)
  {
    Q.ClaimedRow(Update(tx), id, t[id]);
  }

  lemma CommitWindow(c: Config, t: Table, tx: Tx, period: int, hi: int)
    requires tx.sel.Some?
    ensures var after := Q.Window(Next(t, Update(tx)), c.Target(), period, hi);
            && after <= Q.Window(t, c.Target(), period, hi) + Q.Ids(tx.Claims())
            && (hi < tx.d.now ==> after <= Q.Window(t, c.Target(), period, hi))
  {
    var t' := Next(t, Update(tx));
    assert t'.Keys == t.Keys;
    forall id | id in Q.Window(t', c.Target(), period, hi)
      ensures id in Q.Window(t, c.Target(), period, hi) || (id in Q.Ids(tx.Claims()) && tx.d.now <= hi)
    {
      CommitStamps(t, tx, id);
    }
  }

  // The starts that the transaction's own count looks at.
  function CountedStarts(rate: Q.RateLimit, tx: Tx): set<string> {
    Q.RecentIn(tx.snap, tx.d.Target(), tx.d.now - rate.periodMS)
  }

  lemma RecentSame(d: Q.Dequeue, claimed: seq<string>, t: Table)
    ensures d.(claimed := claimed).Recent(t) == d.Recent(t)
  {
    var e := d.(claimed := claimed);
    assert e.Target() == d.Target();
    if d.queue.rateLimit.Some? {
      var x, y := d.now - d.queue.rateLimit.value.periodMS, e.now - e.queue.rateLimit.value.periodMS;
      assert x == y;
      assert Q.RecentIn(t, e.Target(), y) == Q.RecentIn(t, d.Target(), x);
    }
  }

  lemma RecentIsCount(rate: Q.RateLimit, tx: Tx)
    requires tx.d.queue.rateLimit == Some(rate)
    ensures tx.d.Recent(tx.snap) == |CountedStarts(rate, tx)|
  {
  }

  lemma ClaimsFitRate(c: Config, rate: Q.RateLimit, tx: Tx, n: nat)
    requires tx.sel.Some? && Lawful(c, tx) && c.Mine(tx.d) && c.queue.rateLimit == Some(rate) && |tx.Claims()| > 0
    requires n == tx.d.Recent(tx.snap)
    ensures n + |Q.Ids(tx.Claims())| <= rate.limitPerPeriod
  {
    ClaimsLegal(c, tx);
    Q.ClaimsBounded(tx.d.(claimed := tx.Claims()), tx.snap);
    RecentSame(tx.d, tx.Claims(), tx.snap);
    Q.IdsSize(tx.Claims());
  }

  lemma LaterWindowFits(c: Config, rate: Q.RateLimit, t: Table, tx: Tx, hi: int, after: set<string>)
    requires tx.sel.Some? && Lawful(c, tx) && c.Mine(tx.d) && c.queue.rateLimit == Some(rate) && |tx.Claims()| > 0
    requires NoStartsSince(c, t, tx.snap) && tx.d.now <= hi
    requires after <= Q.Window(t, c.Target(), rate.periodMS, hi) + Q.Ids(tx.Claims())
    ensures |after| <= rate.limitPerPeriod
  {
    var recent := CountedStarts(rate, tx);
    WindowCounted(c, t, tx, rate.periodMS, hi);
    RecentIsCount(rate, tx);
    ClaimsFitRate(c, rate, tx, |recent|);
    SubsetSize(after, recent + Q.Ids(tx.Claims()));
    Q.UnionSize(recent, Q.Ids(tx.Claims()));
  }

  lemma CommitWindowFits(c: Config, rate: Q.RateLimit, t: Table, tx: Tx, hi: int)
    requires tx.sel.Some? && Lawful(c, tx) && c.Mine(tx.d) && TxOk(t, tx) && Counted(c, t, tx) && |tx.Claims()| > 0
    requires c.queue.rateLimit == Some(rate) && |Q.Window(t, c.Target(), rate.periodMS, hi)| <= rate.limitPerPeriod
    ensures |Q.Window(Next(t, Update(tx)), c.Target(), rate.periodMS, hi)| <= rate.limitPerPeriod
  {
    var after := Q.Window(Next(t, Update(tx)), c.Target(), rate.periodMS, hi);
    CommitWindow(c, t, tx, rate.periodMS, hi);
    if hi < tx.d.now {
      SubsetSize(after, Q.Window(t, c.Target(), rate.periodMS, hi));
    } else {
      ClaimantNotSpent(c, tx);
      LaterWindowFits(c, rate, t, tx, hi, after);
    }
  }

  lemma CommitWindows(c: Config, rate: Q.RateLimit, t: Table, tx: Tx)
    requires tx.sel.Some? && Lawful(c, tx) && c.Mine(tx.d) && TxOk(t, tx) && Counted(c, t, tx)
    requires c.queue.rateLimit == Some(rate) && Q.WindowsOk(t, c.Target(), rate)
    ensures Q.WindowsOk(Next(t, Update(tx)), c.Target(), rate)
  {
    if |tx.Claims()| == 0 {
      CommitNothing(c, t, tx);
    } else {
      forall hi: int ensures |Q.Window(Next(t, Update(tx)), c.Target(), rate.periodMS, hi)| <= rate.limitPerPeriod {
        assert |Q.Window(t, c.Target(), rate.periodMS, hi)| <= rate.limitPerPeriod;
        CommitWindowFits(c, rate, t, tx, hi);
      }
    }
  }

  lemma CountedAfterCommit(c: Config, t: Table, tx: Tx, ty: Tx)
    requires tx.sel.Some? && Lawful(c, tx) && Judged(c, t, tx) && TxOk(t, tx) && Judged(c, t, ty) && Counted(c, t, ty)
    ensures Counted(c, Next(t, Update(tx)), ty.(touched := ty.touched + Q.Ids(tx.Claims())))
  {
    if |tx.Claims()| > 0 {
      ClaimSpendsOthers(c, t, tx, ty);
    } else {
      CommitNothing(c, t, tx);
      assert ty.(touched := ty.touched + Q.Ids(tx.Claims())) == ty;
    }
  }

  // ---------- Everything else ----------

  lemma SpentStays(c: Config, tx: Tx, ids: set<string>)
    requires Spent(c, tx)
    ensures Spent(c, tx.(touched := tx.touched + ids))
  {
    if !Harmless(c, tx) {
      var f :| IsFirst(c, tx.snap, f) && f in tx.touched;
      assert IsFirst(c, tx.(touched := tx.touched + ids).snap, f);
    }
  }

  lemma OtherStamps(c: Config, t: Table, op: Op, id: string)
    requires Enabled(op) && (op.Claim? ==> forall i | i in op.ids && i in t :: !Q.InScope(t[i], c.Target()))
    requires id in Next(t, op) && StampedIn(c, Next(t, op)[id])
    ensures id in t && StampedIn(c, t[id]) && t[id].startedAt == Next(t, op)[id].startedAt && t[id].rateLimited == Next(t, op)[id].rateLimited
  {
    if id in t {
      if op.Claim? {
        Q.ClaimedRow(op, id, t[id]);
      } else {
        Q.PlainStamp(op, id, t[id]);
      }
    }
  }

  lemma OtherNoStarts(c: Config, t: Table, op: Op, snap: Table)
    requires Enabled(op) && (op.Claim? ==> forall i | i in op.ids && i in t :: !Q.InScope(t[i], c.Target()))
    requires NoStartsSince(c, t, snap)
    ensures NoStartsSince(c, Next(t, op), snap)
  {
    forall id | id in Next(t, op) && StampedIn(c, Next(t, op)[id]) ensures WasStarted(c, snap, id, Next(t, op)[id]) {
      OtherStamps(c, t, op, id);
      assert WasStarted(c, snap, id, t[id]);
    }
  }

  lemma OtherWindows(c: Config, t: Table, op: Op, rate: Q.RateLimit)
    requires Enabled(op) && (op.Claim? ==> forall i | i in op.ids && i in t :: !Q.InScope(t[i], c.Target()))
    requires Q.WindowsOk(t, c.Target(), rate)
    ensures Q.WindowsOk(Next(t, op), c.Target(), rate)
  {
    forall hi: int ensures |Q.Window(Next(t, op), c.Target(), rate.periodMS, hi)| <= rate.limitPerPeriod {
      assert |Q.Window(t, c.Target(), rate.periodMS, hi)| <= rate.limitPerPeriod;
      forall id | id in Q.Window(Next(t, op), c.Target(), rate.periodMS, hi) ensures id in Q.Window(t, c.Target(), rate.periodMS, hi) {
        OtherStamps(c, t, op, id);
      }
      SubsetSize(Q.Window(Next(t, op), c.Target(), rate.periodMS, hi), Q.Window(t, c.Target(), rate.periodMS, hi));
    }
  }

  lemma BeginCounted(c: Config, t: Table)
    requires Inv(t)
    ensures NoStartsSince(c, t, t)
  {
    forall id | id in t && StampedIn(c, t[id]) ensures WasStarted(c, t, id, t[id]) {
      assert RowOk(t[id]);
    }
  }

  // ---------- Whole runs ----------

  lemma CommitRateSound(c: Config, limit: nat, rate: Q.RateLimit, s: State, x: nat)
    requires RateSound(c, limit, rate, s) && Possible(c, s, Commit(x)) && Sound(c, limit, NextState(c, s, Commit(x)))
    ensures RateSound(c, limit, rate, NextState(c, s, Commit(x)))
  {
    var s', tx := NextState(c, s, Commit(x)), s.open[x];
    StepKeeps(s.t, Update(tx));
    CommitWindows(c, rate, s.t, tx);
    forall y | y in s'.open ensures Counted(c, s'.t, s'.open[y]) {
      CountedAfterCommit(c, s.t, tx, s.open[y]);
    }
  }

  lemma OtherRateSound(c: Config, limit: nat, rate: Q.RateLimit, s: State, op: Op)
    requires RateSound(c, limit, rate, s) && Possible(c, s, Other(op)) && Sound(c, limit, NextState(c, s, Other(op)))
    ensures RateSound(c, limit, rate, NextState(c, s, Other(op)))
  {
    var s' := NextState(c, s, Other(op));
    StepKeeps(s.t, op);
    OtherWindows(c, s.t, op, rate);
    forall y | y in s'.open ensures Counted(c, s'.t, s'.open[y]) {
      assert Counted(c, s.t, s.open[y]);
      if Spent(c, s.open[y]) {
        SpentStays(c, s.open[y], Changed(s.t, op));
      } else {
        OtherNoStarts(c, s.t, op, s.open[y].snap);
      }
    }
  }

  lemma LockCounted(c: Config, t: Table, tx: Tx, sel: seq<string>)
    requires Counted(c, t, tx)
    ensures Counted(c, t, tx.(sel := Some(sel)))
  {
    if Spent(c, tx) && !Harmless(c, tx) {
      var f :| IsFirst(c, tx.snap, f) && f in tx.touched;
      assert IsFirst(c, tx.(sel := Some(sel)).snap, f);
    }
  }

  lemma QuietRateSound(c: Config, limit: nat, rate: Q.RateLimit, s: State, ev: Event)
    requires RateSound(c, limit, rate, s) && Possible(c, s, ev) && (ev.Begin? || ev.Lock? || ev.Abort?)
    requires Sound(c, limit, NextState(c, s, ev))
    ensures RateSound(c, limit, rate, NextState(c, s, ev))
  {
    var s' := NextState(c, s, ev);
    BeginCounted(c, s.t);
    forall y | y in s'.open ensures Counted(c, s'.t, s'.open[y]) {
      if ev.Lock? && y == ev.x {
        LockCounted(c, s.t, s.open[y], ev.sel);
      } else {
        assert y in s.open ==> Counted(c, s.t, s.open[y]);
      }
    }
  }

  lemma RateEventKeeps(c: Config, limit: nat, rate: Q.RateLimit, s: State, ev: Event)
    requires RateSound(c, limit, rate, s) && Possible(c, s, ev) && OrderlyEvent(c, s, ev)
    ensures RateSound(c, limit, rate, NextState(c, s, ev))
  {
    OrderlyKeeps(c, limit, s, ev);
    match ev
    case Commit(x) => CommitRateSound(c, limit, rate, s, x);
    case Other(op) => OtherRateSound(c, limit, rate, s, op);
    case _ => QuietRateSound(c, limit, rate, s, ev);
  }

  /**
  With a global limit, which is what makes the dequeues fail on locked rows, the sliding-window rate limit holds too in
  every orderly interleaving of snapshot transactions: for every instant, the rows still stamped as started in the
  period up to it are at most the limit.
  */
  lemma {:induction false} RateLimitHoldsUnderSnapshots(c: Config, limit: nat, rate: Q.RateLimit, s: State, evs: seq<Event>)
    requires RateSound(c, limit, rate, s) && History(c, s, evs) && Orderly(c, s, evs)
    ensures RateSound(c, limit, rate, Run(c, s, evs)) && Q.WindowsOk(Run(c, s, evs).t, c.Target(), rate)
    decreases |evs|
  {
    if |evs| > 0 {
      RateEventKeeps(c, limit, rate, s, evs[0]);
      RateLimitHoldsUnderSnapshots(c, limit, rate, NextState(c, s, evs[0]), evs[1..]);
    }
  }

  /** Both limits hold of every orderly interleaving that begins with an empty table. */
  lemma SnapshotLimitsFromEmptyTable(c: Config, limit: nat, rate: Q.RateLimit, evs: seq<Event>)
    requires c.queue.concurrency == Some(limit) && c.queue.rateLimit == Some(rate)
    requires History(c, State(map[], map[]), evs) && Orderly(c, State(map[], map[]), evs)
    ensures var t := Run(c, State(map[], map[]), evs).t;
            && |c.Running(t)| <= limit
            && forall hi: int :: |Q.Window(t, c.Target(), rate.periodMS, hi)| <= rate.limitPerPeriod
  {
    var s := State(map[], map[]);
    assert c.Running(s.t) == {};
    assert forall hi: int :: Q.Window(s.t, c.Target(), rate.periodMS, hi) == {};
    RateLimitHoldsUnderSnapshots(c, limit, rate, s, evs);
  }
}
