/** For which queues the sliding-window rate limit holds under overlapping snapshot dequeues. */
module SnapshotRateExact {
  import opened Common
  import opened WorkflowStatus
  import opened StatusMachine
  import opened SnapshotDequeue
  import opened SnapshotRate
  import Q = QueueDispatch

  const Blank := State(map[], map[])

  // The rate limit holds in every orderly interleaving.
  ghost predicate RateKept(c: Config, rate: Q.RateLimit) {
    forall evs | History(c, Blank, evs) && Orderly(c, Blank, evs) :: Q.WindowsOk(Run(c, Blank, evs).t, c.Target(), rate)
  }

  // No dequeue of the queue ever claims.
  predicate NeverClaims(c: Config) {
    || c.queue.concurrency == Some(0) || c.queue.workerConcurrency == Some(0)
    || (c.queue.rateLimit.Some? && c.queue.rateLimit.value.limitPerPeriod == 0)
  }

  // ... or no window contains an instant.
  predicate Degenerate(c: Config, rate: Q.RateLimit) {
    NeverClaims(c) || rate.periodMS <= 0
  }

  // ---------- Degenerate limits ----------

  // Nothing of the queue has started, and no open dequeue can claim.
  ghost predicate Still(c: Config, s: State) {
    && c.Running(s.t) == {} && (forall id | id in s.t :: !StampedIn(c, s.t[id]))
    && (forall x | x in s.open :: c.Mine(s.open[x].d) && (s.open[x].sel.Some? ==> s.open[x].Claims() == []))
  }

  lemma AlwaysRefused(c: Config, d: Q.Dequeue, t: Table)
    requires c.Mine(d) && NeverClaims(c)
    ensures d.Refused(t)
  {
  }

  lemma StillStays(c: Config, s: State, ev: Event)
    requires Still(c, s) && Possible(c, s, ev) && NeverClaims(c)
    ensures Still(c, NextState(c, s, ev))
  {
    var s' := NextState(c, s, ev);
    match ev
    case Lock(x, sel) => AlwaysRefused(c, s.open[x].d, s.open[x].snap);
    case Commit(x) =>
      CommitNothing(c, s.t, s.open[x]);
      ClaimsUntouched(c, s, s');
    case Other(op) =>
      OtherRunning(c, s.t, op);
      forall id | id in s'.t ensures !StampedIn(c, s'.t[id]) {
        if StampedIn(c, s'.t[id]) {
          OtherStamps(c, s.t, op, id);
        }
      }
      ClaimsUntouched(c, s, s');
    case _ =>
  }

  // Reporting a change to an open dequeue does not change its claims.
  lemma ClaimsUntouched(c: Config, s: State, s': State)
    requires Still(c, s)
    requires forall x | x in s'.open :: x in s.open && s'.open[x] == s.open[x].(touched := s'.open[x].touched)
    ensures forall x | x in s'.open :: c.Mine(s'.open[x].d) && (s'.open[x].sel.Some? ==> s'.open[x].Claims() == [])
  {
    forall x | x in s'.open && s'.open[x].sel.Some? ensures s'.open[x].Claims() == [] {
      assert s'.open[x].Claims() == s.open[x].Claims();
    }
  }

  lemma {:induction false} AlwaysStill(c: Config, s: State, evs: seq<Event>)
    requires Still(c, s) && History(c, s, evs) && NeverClaims(c)
    ensures Still(c, Run(c, s, evs))
    decreases |evs|
  {
    if |evs| > 0 {
      StillStays(c, s, evs[0]);
      AlwaysStill(c, NextState(c, s, evs[0]), evs[1..]);
    }
  }

  lemma DegenerateKeeps(c: Config, rate: Q.RateLimit, evs: seq<Event>)
    requires Degenerate(c, rate) && c.queue.rateLimit == Some(rate) && History(c, Blank, evs)
    ensures Q.WindowsOk(Run(c, Blank, evs).t, c.Target(), rate)
  {
    var t := Run(c, Blank, evs).t;
    if rate.periodMS > 0 {
      AlwaysStill(c, Blank, evs);
    }
    forall hi: int ensures |Q.Window(t, c.Target(), rate.periodMS, hi)| <= rate.limitPerPeriod {
      assert Q.Window(t, c.Target(), rate.periodMS, hi) == {} by {
        forall id | id in t && StampedIn(c, t[id]) ensures rate.periodMS <= 0 {
        }
      }
    }
  }

  // ---------- Composing histories ----------

  ghost predicate Reaches(c: Config, s: State, evs: seq<Event>, e: State) {
    History(c, s, evs) && Orderly(c, s, evs) && Run(c, s, evs) == e
  }

  lemma ReachNothing(c: Config, s: State)
    ensures Reaches(c, s, [], s)
  {
  }

  lemma ReachOne(c: Config, s: State, ev: Event, e: State)
    requires Possible(c, s, ev) && OrderlyEvent(c, s, ev) && NextState(c, s, ev) == e
    ensures Reaches(c, s, [ev], e)
  {
    assert [ev][1..] == [];
  }

  lemma {:induction false} ReachThen(c: Config, s: State, a: seq<Event>, m: State, b: seq<Event>, e: State)
    requires Reaches(c, s, a, m) && Reaches(c, m, b, e)
    ensures Reaches(c, s, a + b, e)
    decreases |a|
  {
    if |a| == 0 {
      assert a + b == b;
    } else {
      ReachThen(c, NextState(c, s, a[0]), a[1..], m, b, e);
      assert (a + b)[1..] == a[1..] + b;
    }
  }

  // ---------- Too many starts ----------

  // Row i of the queue, created at i.
  function Name(i: nat): string {
    seq(i, _ => 'x')
  }

  lemma NamesDiffer(i: nat, j: nat)
    ensures Name(i) == Name(j) ==> i == j
  {
    assert |Name(i)| == i && |Name(j)| == j;
  }

  function Line(c: Config, i: nat): Row {
    WaitingRow(c, 0).(createdAt := i)
  }

  // Waiting rows 0 .. n-1; those before k have been started.
  function Rows(c: Config, k: nat, n: nat): Table
    decreases n
  {
    if n == 0 then map[]
    else Rows(c, k, n - 1)[Name(n - 1) := if n - 1 < k then Begun(c, n - 1) else Line(c, n - 1)]
  }

  function Begun(c: Config, i: nat): Row {
    Line(c, i).(status := WorkflowStatus.Pending, executor := "e", startedAt := Some(0), rateLimited := true)
  }

  lemma {:induction false} RowsAt(c: Config, k: nat, n: nat, i: nat)
    requires i < n
    ensures Name(i) in Rows(c, k, n) && Rows(c, k, n)[Name(i)] == if i < k then Begun(c, i) else Line(c, i)
    decreases n
  {
    if i < n - 1 {
      RowsAt(c, k, n - 1, i);
      NamesDiffer(i, n - 1);
    }
  }

  lemma {:induction false} RowsOnly(c: Config, k: nat, n: nat, id: string) returns (i: nat)
    requires id in Rows(c, k, n)
    ensures i < n && id == Name(i)
    decreases n
  {
    if id == Name(n - 1) {
      i := n - 1;
    } else {
      i := RowsOnly(c, k, n - 1, id);
    }
  }

  function Names(n: nat): set<string> {
    set i: nat | i < n :: Name(i)
  }

  lemma {:induction false} NamesSize(n: nat)
    ensures |Names(n)| == n
  {
    if n > 0 {
      NamesSize(n - 1);
      forall i: nat | i < n - 1 ensures Name(i) != Name(n - 1) {
        NamesDiffer(i, n - 1);
      }
      assert Names(n) == Names(n - 1) + {Name(n - 1)};
      assert Name(n - 1) !in Names(n - 1);
    }
  }

  // The limits leave room for a claim.
  predicate CanClaim(c: Config, rate: Q.RateLimit) {
    c.queue.concurrency.None? && c.queue.rateLimit == Some(rate) && !Degenerate(c, rate)
  }

  // A dequeuer with room for one row, or for all if there is no limit on the worker.
  function Worker(c: Config): Q.Dequeue {
    Dequeuer(c).(localRunning := if c.queue.workerConcurrency.Some? then Q.Minus(c.queue.workerConcurrency.value, 1) else 0)
  }

  // Dequeues k .. n-1 are open; each began when it was the turn of its row, and has locked that row.
  function Opened(c: Config, k: nat, n: nat): map<nat, Tx> {
    map x: nat | k <= x < n :: Tx(Worker(c), Rows(c, 0, x + 1), Names(k), Some([Name(x)]))
  }

  function Stage(c: Config, k: nat, n: nat): State {
    State(Rows(c, k, n), Opened(c, k, n))
  }

  // ---------- Opening ----------

  lemma LinesEligible(c: Config, n: nat)
    ensures c.Eligible(Rows(c, 0, n)) == Names(n)
  {
    forall id ensures id in c.Eligible(Rows(c, 0, n)) <==> id in Names(n) {
      if id in Rows(c, 0, n) {
        var i := RowsOnly(c, 0, n, id);
        RowsAt(c, 0, n, i);
      }
      if id in Names(n) {
        var i: nat :| i < n && id == Name(i);
        RowsAt(c, 0, n, i);
      }
    }
  }

  lemma FirstLine(c: Config, n: nat)
    requires n > 0
    ensures IsFirst(c, Rows(c, 0, n), Name(0))
  {
    LinesEligible(c, n);
    RowsAt(c, 0, n, 0);
    forall e | e in Names(n) && e != Name(0) ensures e in Rows(c, 0, n) && StrictlyBefore(Rows(c, 0, n)[Name(0)], Rows(c, 0, n)[e]) {
      var i: nat :| i < n && e == Name(i);
      RowsAt(c, 0, n, i);
    }
  }

  lemma NewName(c: Config, n: nat)
    ensures Name(n) !in Rows(c, 0, n)
  {
    if Name(n) in Rows(c, 0, n) {
      var i := RowsOnly(c, 0, n, Name(n));
      NamesDiffer(i, n);
    }
  }

  function Arrive(c: Config, n: nat): Op {
    EnqueueMany(map[Name(n) := Line(c, n)])
  }

  lemma ArriveAdds(c: Config, n: nat)
    ensures Enabled(Arrive(c, n)) && Next(Rows(c, 0, n), Arrive(c, n)) == Rows(c, 0, n + 1) && Changed(Rows(c, 0, n), Arrive(c, n)) == {}
  {
    NewName(c, n);
    assert Next(Rows(c, 0, n), Arrive(c, n)).Keys == Rows(c, 0, n + 1).Keys;
  }

  lemma ArriveLast(c: Config, n: nat, tx: Tx, m: nat)
    requires m < n && tx.snap == Rows(c, 0, m + 1)
    ensures Behind(c, Rows(c, 0, n), Rows(c, 0, n + 1), tx)
  {
    var t, t' := Rows(c, 0, n), Rows(c, 0, n + 1);
    forall f, id | IsFirst(c, tx.snap, f) && Unchanged(t, t', f) && id in c.Eligible(t') && id != f && !Unchanged(t, t', id)
      ensures StrictlyBefore(t[f], t'[id])
    {
      var i := RowsOnly(c, 0, m + 1, f);
      RowsAt(c, 0, n, i);
      var j := RowsOnly(c, 0, n + 1, id);
      RowsAt(c, 0, n + 1, j);
      if j < n {
        RowsAt(c, 0, n, j);
      }
    }
  }

  lemma Arrives(c: Config, n: nat)
    ensures Reaches(c, Stage(c, 0, n), [Other(Arrive(c, n))], State(Rows(c, 0, n + 1), Opened(c, 0, n)))
  {
    var s, ev := Stage(c, 0, n), Other(Arrive(c, n));
    ArriveAdds(c, n);
    forall x | x in s.open ensures Behind(c, s.t, Rows(c, 0, n + 1), s.open[x]) {
      ArriveLast(c, n, s.open[x], x);
    }
    assert Touch(s.open, {}) == s.open by {
      forall x | x in s.open ensures s.open[x].(touched := s.open[x].touched + {}) == s.open[x] {
      }
    }
    ReachOne(c, s, ev, State(Rows(c, 0, n + 1), Opened(c, 0, n)));
  }

  function JustOpened(c: Config, n: nat): State {
    State(Rows(c, 0, n + 1), Opened(c, 0, n)[n := Tx(Worker(c), Rows(c, 0, n + 1), {}, None)])
  }

  lemma Begins(c: Config, n: nat)
    ensures Reaches(c, State(Rows(c, 0, n + 1), Opened(c, 0, n)), [Begin(n, Worker(c))], JustOpened(c, n))
  {
    FirstLine(c, n + 1);
    ReachOne(c, State(Rows(c, 0, n + 1), Opened(c, 0, n)), Begin(n, Worker(c)), JustOpened(c, n));
  }

  lemma NoneRecentlyStarted(c: Config, rate: Q.RateLimit, n: nat)
    requires c.queue.rateLimit == Some(rate)
    ensures Worker(c).Recent(Rows(c, 0, n)) == 0
  {
    var since := Worker(c).now - rate.periodMS;
    forall id | id in Q.RecentIn(Rows(c, 0, n), Worker(c).Target(), since) ensures false {
      var i := RowsOnly(c, 0, n, id);
      RowsAt(c, 0, n, i);
    }
    assert Q.RecentIn(Rows(c, 0, n), Worker(c).Target(), since) == {};
  }

  lemma WorkerHasRoom(c: Config, rate: Q.RateLimit, n: nat)
    requires CanClaim(c, rate)
    ensures !Worker(c).Refused(Rows(c, 0, n))
    ensures var room := Q.MaxTasks(c.queue, Worker(c).localRunning, |Q.PendingIn(Rows(c, 0, n), Worker(c).Target())|);
            room.None? || room == Some(1)
  {
    NoneRecentlyStarted(c, rate, n);
  }

  lemma BarredNames(c: Config, n: nat)
    ensures Barred(JustOpened(c, n), n) == Names(n)
  {
    var s := JustOpened(c, n);
    forall y | y in s.open && y != n ensures s.open[y].Locked() == {Name(y)} {
      assert Q.Ids([Name(y)]) == {Name(y)};
    }
    forall id ensures id in Barred(s, n) <==> id in Names(n) {
      if id in Names(n) {
        var i: nat :| i < n && id == Name(i);
        assert i in s.open && id in s.open[i].Locked();
      }
    }
  }

  lemma LastName(n: nat)
    ensures Name(n) !in Names(n) && Names(n + 1) - Names(n) == {Name(n)}
  {
    forall i: nat | i < n ensures Name(i) != Name(n) {
      NamesDiffer(i, n);
    }
  }

  lemma SingleSelection(t: Table, id: string, room: Option<nat>)
    requires id in t && (room.None? || room == Some(1))
    ensures Q.IsSelection(t, {id}, room, [id])
  {
    assert Q.Ids([id]) == {id};
  }

  lemma LastIsSelection(c: Config, n: nat, room: Option<nat>)
    requires room.None? || room == Some(1)
    ensures Q.IsSelection(Rows(c, 0, n + 1), c.Eligible(Rows(c, 0, n + 1)) - Names(n), room, [Name(n)])
  {
    LinesEligible(c, n + 1);
    RowsAt(c, 0, n + 1, n);
    LastName(n);
    SingleSelection(Rows(c, 0, n + 1), Name(n), room);
  }

  lemma LockOpens(c: Config, n: nat)
    ensures var s := JustOpened(c, n); s.(open := s.open[n := s.open[n].(sel := Some([Name(n)]))]) == Stage(c, 0, n + 1)
  {
    assert Names(0) == {};
    var s := JustOpened(c, n);
    assert s.open[n := s.open[n].(sel := Some([Name(n)]))] == Opened(c, 0, n + 1);
  }

  lemma LastReturned(c: Config, rate: Q.RateLimit, n: nat, tx: Tx)
    requires CanClaim(c, rate) && tx == Tx(Worker(c), Rows(c, 0, n + 1), {}, None)
    ensures Returns(c, tx, Names(n), [Name(n)])
  {
    WorkerHasRoom(c, rate, n + 1);
    LastIsSelection(c, n, Q.MaxTasks(c.queue, Worker(c).localRunning, |Q.PendingIn(Rows(c, 0, n + 1), Worker(c).Target())|));
  }

  lemma LockPossible(c: Config, rate: Q.RateLimit, n: nat)
    requires CanClaim(c, rate)
    ensures Possible(c, JustOpened(c, n), Lock(n, [Name(n)]))
  {
    LastReturned(c, rate, n, JustOpened(c, n).open[n]);
    BarredNames(c, n);
    LastName(n);
    assert Q.Ids([Name(n)]) == {Name(n)};
  }

  lemma Locks(c: Config, rate: Q.RateLimit, n: nat)
    requires CanClaim(c, rate)
    ensures Reaches(c, JustOpened(c, n), [Lock(n, [Name(n)])], Stage(c, 0, n + 1))
  {
    LockPossible(c, rate, n);
    LockOpens(c, n);
    ReachOne(c, JustOpened(c, n), Lock(n, [Name(n)]), Stage(c, 0, n + 1));
  }

  lemma Round(c: Config, rate: Q.RateLimit, n: nat) returns (evs: seq<Event>)
    requires CanClaim(c, rate)
    ensures Reaches(c, Stage(c, 0, n), evs, Stage(c, 0, n + 1))
  {
    var m := State(Rows(c, 0, n + 1), Opened(c, 0, n));
    Arrives(c, n);
    Begins(c, n);
    Locks(c, rate, n);
    ReachThen(c, Stage(c, 0, n), [Other(Arrive(c, n))], m, [Begin(n, Worker(c))], JustOpened(c, n));
    ReachThen(c, Stage(c, 0, n), [Other(Arrive(c, n))] + [Begin(n, Worker(c))], JustOpened(c, n), [Lock(n, [Name(n)])], Stage(c, 0, n + 1));
    evs := [Other(Arrive(c, n))] + [Begin(n, Worker(c))] + [Lock(n, [Name(n)])];
  }

  lemma OneMoreRound(c: Config, rate: Q.RateLimit, n: nat, a: seq<Event>) returns (evs: seq<Event>)
    requires CanClaim(c, rate) && Reaches(c, Blank, a, Stage(c, 0, n))
    ensures Reaches(c, Blank, evs, Stage(c, 0, n + 1))
  {
    var b := Round(c, rate, n);
    ReachThen(c, Blank, a, Stage(c, 0, n), b, Stage(c, 0, n + 1));
    evs := a + b;
  }

  lemma AllOpen(c: Config, rate: Q.RateLimit, n: nat) returns (evs: seq<Event>)
    requires CanClaim(c, rate)
    ensures Reaches(c, Blank, evs, Stage(c, 0, n))
  {
    evs := [];
    assert Stage(c, 0, 0) == Blank;
    ReachNothing(c, Blank);
    var k := 0;
    while k != n
      invariant 0 <= k <= n && Reaches(c, Blank, evs, Stage(c, 0, k))
    {
      evs := OneMoreRound(c, rate, k, evs);
      k := k + 1;
    }
  }

  // ---------- Committing ----------

  lemma OpenClaims(c: Config, rate: Q.RateLimit, tx: Tx, x: nat)
    requires CanClaim(c, rate) && tx.d == Worker(c) && tx.snap == Rows(c, 0, x + 1) && tx.sel == Some([Name(x)])
    ensures tx.Claims() == [Name(x)]
  {
    NoneRecentlyStarted(c, rate, x + 1);
    assert [Name(x)][..1] == [Name(x)];
  }

  lemma ClaimBegins(c: Config, rate: Q.RateLimit, tx: Tx, k: nat, n: nat)
    requires CanClaim(c, rate) && k < n && tx.d == Worker(c) && tx.sel.Some? && tx.Claims() == [Name(k)]
    ensures Next(Rows(c, k, n), Update(tx)) == Rows(c, k + 1, n)
  {
    var t, t', u := Rows(c, k, n), Next(Rows(c, k, n), Update(tx)), Rows(c, k + 1, n);
    assert Q.Ids([Name(k)]) == {Name(k)};
    forall id ensures (id in t' <==> id in u) && (id in t' ==> t'[id] == u[id]) {
      if id in t {
        var i := RowsOnly(c, k, n, id);
        RowsAt(c, k, n, i);
        RowsAt(c, k + 1, n, i);
        NamesDiffer(i, k);
        RowClaimed(c, tx, k, i, t[id]);
      }
      if id in u {
        var i := RowsOnly(c, k + 1, n, id);
        RowsAt(c, k, n, i);
      }
    }
  }

  lemma RowClaimed(c: Config, tx: Tx, k: nat, i: nat, row: Row)
    requires tx.d == Worker(c) && tx.sel.Some? && tx.Claims() == [Name(k)] && c.queue.rateLimit.Some? && (Name(i) == Name(k) <==> i == k)
    requires row == if i < k then Begun(c, i) else Line(c, i)
    ensures NextRow(Update(tx), Name(i), row) == if i < k + 1 then Begun(c, i) else Line(c, i)
  {
    assert Q.Ids([Name(k)]) == {Name(k)};
  }

  lemma CommitOpens(c: Config, k: nat, n: nat)
    requires k < n
    ensures Touch(Opened(c, k, n) - {k}, {Name(k)}) == Opened(c, k + 1, n)
  {
    assert Names(k + 1) == Names(k) + {Name(k)};
  }

  lemma Commits(c: Config, rate: Q.RateLimit, k: nat, n: nat)
    requires CanClaim(c, rate) && k < n
    ensures Reaches(c, Stage(c, k, n), [Commit(k)], Stage(c, k + 1, n))
  {
    var tx := Stage(c, k, n).open[k];
    OpenClaims(c, rate, tx, k);
    ClaimBegins(c, rate, tx, k, n);
    CommitOpens(c, k, n);
    assert Q.Ids([Name(k)]) == {Name(k)};
    ReachOne(c, Stage(c, k, n), Commit(k), Stage(c, k + 1, n));
  }

  lemma OneMoreCommit(c: Config, rate: Q.RateLimit, k: nat, n: nat, a: seq<Event>)
    requires CanClaim(c, rate) && k < n && Reaches(c, Stage(c, 0, n), a, Stage(c, k, n))
    ensures Reaches(c, Stage(c, 0, n), a + [Commit(k)], Stage(c, k + 1, n))
  {
    Commits(c, rate, k, n);
    ReachThen(c, Stage(c, 0, n), a, Stage(c, k, n), [Commit(k)], Stage(c, k + 1, n));
  }

  lemma AllCommit(c: Config, rate: Q.RateLimit, n: nat) returns (evs: seq<Event>)
    requires CanClaim(c, rate)
    ensures Reaches(c, Stage(c, 0, n), evs, Stage(c, n, n))
  {
    evs := [];
    ReachNothing(c, Stage(c, 0, n));
    var k := 0;
    while k != n
      invariant 0 <= k <= n && Reaches(c, Stage(c, 0, n), evs, Stage(c, k, n))
    {
      OneMoreCommit(c, rate, k, n, evs);
      evs := evs + [Commit(k)];
      k := k + 1;
    }
  }

  lemma AllInWindow(c: Config, rate: Q.RateLimit, n: nat)
    requires CanClaim(c, rate)
    ensures |Q.Window(Rows(c, n, n), c.Target(), rate.periodMS, 0)| >= n
  {
    var w := Q.Window(Rows(c, n, n), c.Target(), rate.periodMS, 0);
    forall id | id in Names(n) ensures id in w {
      var i: nat :| i < n && id == Name(i);
      RowsAt(c, n, n, i);
    }
    NamesSize(n);
    SubsetSize(Names(n), w);
  }

  /** Without a global limit, a rate limit of any size is exceeded by one more dequeue than it, each with room for one row. */
  lemma TooManyStarts(c: Config, rate: Q.RateLimit) returns (evs: seq<Event>)
    requires CanClaim(c, rate)
    ensures History(c, Blank, evs) && Orderly(c, Blank, evs)
    ensures |Q.Window(Run(c, Blank, evs).t, c.Target(), rate.periodMS, 0)| > rate.limitPerPeriod
  {
    var n := rate.limitPerPeriod + 1;
    var a := AllOpen(c, rate, n);
    var b := AllCommit(c, rate, n);
    ReachThen(c, Blank, a, Stage(c, 0, n), b, Stage(c, n, n));
    AllInWindow(c, rate, n);
    evs := a + b;
  }

  /**
  The exact condition on a queue: its rate limit holds in every orderly interleaving of snapshot dequeues exactly if it has
  a global limit, or the limits leave nothing to claim.
  */
  lemma RateKeptExactly(c: Config, rate: Q.RateLimit)
    requires c.queue.rateLimit == Some(rate)
    ensures RateKept(c, rate) <==> c.queue.concurrency.Some? || Degenerate(c, rate)
  {
    if c.queue.concurrency.Some? || Degenerate(c, rate) {
      forall evs | History(c, Blank, evs) && Orderly(c, Blank, evs) ensures Q.WindowsOk(Run(c, Blank, evs).t, c.Target(), rate) {
        if Degenerate(c, rate) {
          DegenerateKeeps(c, rate, evs);
        } else {
          SnapshotLimitsFromEmptyTable(c, c.queue.concurrency.value, rate, evs);
        }
      }
    } else {
      var evs := TooManyStarts(c, rate);
      assert !Q.WindowsOk(Run(c, Blank, evs).t, c.Target(), rate);
    }
  }
}
