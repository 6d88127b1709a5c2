/**
For which queues the limits hold in every interleaving, also those in which arriving rows overtake open dequeues.

A queue that can claim at all can exceed its global limit by one, and its rate limit at the same time: it is filled up to
one below the global limit, with starts far apart, and up to one below the rate limit, with rows that end at once; then two
dequeues overlap, and the first row of the second has overtaken that of the first.
*/
module SnapshotLimitExact {
  import opened Common
  import opened WorkflowStatus
  import opened StatusMachine
  import opened SnapshotDequeue
  import opened SnapshotRate
  import opened SnapshotRateExact
  import Q = QueueDispatch

  ghost predicate LimitKept(c: Config, limit: nat) {
    forall evs | History(c, Blank, evs) :: |c.Running(Run(c, Blank, evs).t)| <= limit
  }

  ghost predicate WindowsKept(c: Config, rate: Q.RateLimit) {
    forall evs | History(c, Blank, evs) :: Q.WindowsOk(Run(c, Blank, evs).t, c.Target(), rate)
  }

  // ---------- Composing histories ----------

  ghost predicate Gets(c: Config, s: State, evs: seq<Event>, e: State) {
    History(c, s, evs) && Run(c, s, evs) == e
  }

  lemma GetsOne(c: Config, s: State, ev: Event, e: State)
    requires Possible(c, s, ev) && NextState(c, s, ev) == e
    ensures Gets(c, s, [ev], e)
  {
    assert [ev][1..] == [];
  }

  lemma {:induction false} GetsThen(c: Config, s: State, a: seq<Event>, m: State, b: seq<Event>, e: State)
    requires Gets(c, s, a, m) && Gets(c, m, b, e)
    ensures Gets(c, s, a + b, e)
    decreases |a|
  {
    if |a| == 0 {
      assert a + b == b;
    } else {
      GetsThen(c, NextState(c, s, a[0]), a[1..], m, b, e);
      assert (a + b)[1..] == a[1..] + b;
    }
  }

  // ---------- One row ----------

  function Starter(c: Config, now: int): Q.Dequeue {
    Dequeuer(c).(now := now)
  }

  // A new row that waits in the queue.
  predicate Waits(c: Config, row: Row) {
    && NewRow(row) && row.status.Enqueued? && row.dedupId.None? && row.ownerXid.None?
    && Q.InScope(row, c.Target()) && row.appVersion == Some(c.version)
  }

  // A row that a dequeue at this time has started.
  predicate Runs(c: Config, row: Row, now: int) {
    && row.status.Pending? && Q.InScope(row, c.Target()) && row.startedAt == Some(now) && row.rateLimited == c.queue.rateLimit.Some?
  }

  // ... and that has ended since.
  predicate HasEnded(c: Config, row: Row, now: int) {
    && row.status.Success? && Q.InScope(row, c.Target()) && row.startedAt == Some(now) && row.rateLimited == c.queue.rateLimit.Some?
  }

  // The table with one more row, or with that row changed.
  predicate With(t: Table, id: string, t': Table) {
    t'.Keys == t.Keys + {id} && forall i | i in t && i != id :: t'[i] == t[i]
  }

  // One more row can be claimed, and none waits.
  predicate HasRoom(c: Config, t: Table, now: int) {
    && c.Eligible(t) == {} && c.queue.concurrency.Some? && |c.Running(t)| < c.queue.concurrency.value
    && c.queue.workerConcurrency != Some(0)
    && (c.queue.rateLimit.Some? ==> Starter(c, now).Recent(t) < c.queue.rateLimit.value.limitPerPeriod)
  }

  lemma ArrivalWaits(c: Config, t: Table, id: string, t': Table, now: int)
    requires id !in t && With(t, id, t') && Waits(c, t'[id])
    ensures c.Eligible(t') == c.Eligible(t) + {id} && c.Running(t') == c.Running(t)
    ensures Starter(c, now).Recent(t') == Starter(c, now).Recent(t)
  {
    var d := Starter(c, now);
    if c.queue.rateLimit.Some? {
      var since := d.now - c.queue.rateLimit.value.periodMS;
      assert Q.RecentIn(t', d.Target(), since) == Q.RecentIn(t, d.Target(), since);
    }
  }

  lemma TouchNothing(open: map<nat, Tx>)
    ensures Touch(open, {}) == open
  {
    forall x | x in open ensures open[x].(touched := open[x].touched + {}) == open[x] {
    }
  }

  lemma Arrival(t: Table, id: string, row: Row)
    requires id !in t
    ensures Next(t, EnqueueMany(map[id := row])) == t[id := row] && Changed(t, EnqueueMany(map[id := row])) == {}
  {
  }

  lemma ArrivalStep(c: Config, t: Table, open: map<nat, Tx>, id: string, row: Row)
    requires id !in t && Waits(c, row)
    ensures Gets(c, State(t, open), [Other(EnqueueMany(map[id := row]))], State(t[id := row], open))
  {
    Arrival(t, id, row);
    TouchNothing(open);
    GetsOne(c, State(t, open), Other(EnqueueMany(map[id := row])), State(t[id := row], open));
  }

  lemma BeginStep(c: Config, t: Table, open: map<nat, Tx>, x: nat, d: Q.Dequeue)
    requires x !in open && c.Mine(d)
    ensures Gets(c, State(t, open), [Begin(x, d)], State(t, open[x := Tx(d, t, {}, None)]))
  {
    GetsOne(c, State(t, open), Begin(x, d), State(t, open[x := Tx(d, t, {}, None)]));
  }

  lemma LockStep(c: Config, s: State, x: nat, sel: seq<string>)
    requires Possible(c, s, Lock(x, sel))
    ensures Gets(c, s, [Lock(x, sel)], s.(open := s.open[x := s.open[x].(sel := Some(sel))]))
  {
    GetsOne(c, s, Lock(x, sel), s.(open := s.open[x := s.open[x].(sel := Some(sel))]));
  }

  // The dequeue claims the one row that it has locked.
  predicate ClaimsOne(c: Config, tx: Tx, id: string, now: int) {
    tx.d == Starter(c, now) && tx.sel == Some([id]) && tx.Claims() == [id]
  }

  lemma LockedOne(c: Config, tx: Tx, id: string, now: int)
    requires tx.d == Starter(c, now) && tx.sel == Some([id])
    requires c.queue.rateLimit.Some? ==> tx.d.Recent(tx.snap) < c.queue.rateLimit.value.limitPerPeriod
    ensures ClaimsOne(c, tx, id, now)
  {
    assert [id][..1] == [id];
  }

  lemma ClaimRuns(c: Config, t: Table, tx: Tx, id: string, now: int)
    requires ClaimsOne(c, tx, id, now) && id in t && t[id].status.Enqueued? && Q.InScope(t[id], c.Target())
    ensures var t' := Next(t, Update(tx)); With(t, id, t') && Runs(c, t'[id], now)
  {
    assert id in Q.Ids([id]);
    CommitChanges(t, tx);
    Q.ClaimedRow(Update(tx), id, t[id]);
  }

  lemma CommitStep(c: Config, s: State, x: nat, id: string, now: int) returns (t': Table)
    requires x in s.open && ClaimsOne(c, s.open[x], id, now) && id in s.t && s.t[id].status.Enqueued? && Q.InScope(s.t[id], c.Target())
    ensures With(s.t, id, t') && Runs(c, t'[id], now)
    ensures Gets(c, s, [Commit(x)], State(t', Touch(s.open - {x}, {id})))
  {
    t' := Next(s.t, Update(s.open[x]));
    ClaimRuns(c, s.t, s.open[x], id, now);
    assert Q.Ids([id]) == {id};
    GetsOne(c, s, Commit(x), State(t', Touch(s.open - {x}, {id})));
  }

  lemma OneSelection(t: Table, id: string, room: nat)
    requires id in t && room > 0
    ensures Q.IsSelection(t, {id}, Some(room), [id])
  {
    assert Q.Ids([id]) == {id};
  }

  // The only waiting row of the snapshot is locked.
  lemma LockOnly(c: Config, t: Table, id: string, t': Table, now: int, tx: Tx)
    requires id !in t && HasRoom(c, t, now) && With(t, id, t') && Waits(c, t'[id]) && tx == Tx(Starter(c, now), t', {}, None)
    ensures Possible(c, State(t', map[0 := tx]), Lock(0, [id])) && ClaimsOne(c, tx.(sel := Some([id])), id, now)
  {
    ArrivalWaits(c, t, id, t', now);
    var room := Q.MaxTasks(c.queue, 0, |c.Running(t')|);
    assert room.Some? && room.value > 0;
    OneSelection(t', id, room.value);
    assert c.Eligible(t') - {} == {id};
    assert Barred(State(t', map[0 := tx]), 0) == {};
    LockedOne(c, tx.(sel := Some([id])), id, now);
  }

  lemma NewWaits(c: Config, priority: int)
    ensures Waits(c, WaitingRow(c, priority))
  {
  }

  lemma OpenOne(tx: Tx, sel: seq<string>)
    ensures map[0 := tx][0 := tx.(sel := Some(sel))] == map[0 := tx.(sel := Some(sel))]
    ensures Touch(map[0 := tx.(sel := Some(sel))] - {0}, {}) == map[]
  {
  }

  // The row has arrived: it is dequeued.
  lemma Claim(c: Config, t: Table, id: string, t1: Table, now: int) returns (evs: seq<Event>, t2: Table)
    requires id !in t && HasRoom(c, t, now) && With(t, id, t1) && Waits(c, t1[id])
    ensures Gets(c, State(t1, map[]), evs, State(t2, map[])) && With(t, id, t2) && Runs(c, t2[id], now)
  {
    var d := Starter(c, now);
    var tx := Tx(d, t1, {}, None);
    var s1, s2, s3 := State(t1, map[]), State(t1, map[0 := tx]), State(t1, map[0 := tx.(sel := Some([id]))]);
    BeginStep(c, t1, map[], 0, d);
    LockOnly(c, t, id, t1, now, tx);
    LockStep(c, s2, 0, [id]);
    OpenOne(tx, [id]);
    t2 := CommitStep(c, s3, 0, id, now);
    assert Touch(s3.open - {0}, {id}) == map[];
    GetsThen(c, s1, [Begin(0, d)], s2, [Lock(0, [id])], s3);
    GetsThen(c, s1, [Begin(0, d)] + [Lock(0, [id])], s3, [Commit(0)], State(t2, map[]));
    evs := [Begin(0, d)] + [Lock(0, [id])] + [Commit(0)];
  }

  /** A row arrives and is started, with nothing else going on. */
  lemma Serve(c: Config, t: Table, id: string, now: int) returns (evs: seq<Event>, t2: Table)
    requires id !in t && HasRoom(c, t, now)
    ensures Gets(c, State(t, map[]), evs, State(t2, map[])) && With(t, id, t2) && Runs(c, t2[id], now)
  {
    var row := WaitingRow(c, 0);
    NewWaits(c, 0);
    ArrivalStep(c, t, map[], id, row);
    evs, t2 := Claim(c, t, id, t[id := row], now);
    GetsThen(c, State(t, map[]), [Other(EnqueueMany(map[id := row]))], State(t[id := row], map[]), evs, State(t2, map[]));
    evs := [Other(EnqueueMany(map[id := row]))] + evs;
  }

  lemma EndedRow(c: Config, t: Table, id: string, now: int)
    requires id in t && Runs(c, t[id], now)
    ensures var t' := Next(t, RecordOutcome(id, Returned(""))); With(t, id, t') && HasEnded(c, t'[id], now)
  {
  }

  lemma EndOne(c: Config, t: Table, id: string, now: int) returns (evs: seq<Event>, t': Table)
    requires id in t && Runs(c, t[id], now)
    ensures Gets(c, State(t, map[]), evs, State(t', map[])) && With(t, id, t') && HasEnded(c, t'[id], now)
  {
    var op := RecordOutcome(id, Returned(""));
    t', evs := Next(t, op), [Other(op)];
    EndedRow(c, t, id, now);
    assert Touch(map[], Changed(t, op)) == map[];
    GetsOne(c, State(t, map[]), Other(op), State(t', map[]));
  }

  // ---------- Two dequeues that overlap ----------

  // Room for exactly one row.
  predicate RoomForOne(c: Config, t: Table, now: int) {
    HasRoom(c, t, now) && |c.Running(t)| + 1 == c.queue.concurrency.value
  }

  // Row a waits in `one`; in `two` row b waits too, ahead of it.
  predicate Overtaken(c: Config, t: Table, a: string, b: string, one: Table, two: Table) {
    && a !in t && b !in t && a != b && With(t, a, one) && With(one, b, two)
    && Waits(c, one[a]) && Waits(c, two[b]) && StrictlyBefore(two[b], two[a])
  }

  // The first dequeue began before row b arrived, the second after that.
  function Overlap(c: Config, one: Table, two: Table, now: int, sel0: Option<seq<string>>, sel1: Option<seq<string>>): State {
    State(two, map[0 := Tx(Starter(c, now), one, {}, sel0), 1 := Tx(Starter(c, now), two, {}, sel1)])
  }

  lemma ArrivedAhead(c: Config, t: Table, a: string, b: string) returns (one: Table, two: Table)
    requires a !in t && b !in t && a != b
    ensures one == t[a := WaitingRow(c, 0)] && two == one[b := WaitingRow(c, -1)] && Overtaken(c, t, a, b, one, two)
  {
    one := t[a := WaitingRow(c, 0)];
    two := one[b := WaitingRow(c, -1)];
  }

  lemma OverlapReached(c: Config, t: Table, a: string, b: string, now: int) returns (evs: seq<Event>, one: Table, two: Table)
    requires a !in t && b !in t && a != b
    ensures Overtaken(c, t, a, b, one, two) && Gets(c, State(t, map[]), evs, Overlap(c, one, two, now, None, None))
  {
    var d, ra, rb := Starter(c, now), WaitingRow(c, 0), WaitingRow(c, -1);
    one, two := ArrivedAhead(c, t, a, b);
    var open := map[0 := Tx(d, one, {}, None)];
    NewWaits(c, 0);
    NewWaits(c, -1);
    ArrivalStep(c, t, map[], a, ra);
    BeginStep(c, one, map[], 0, d);
    ArrivalStep(c, one, open, b, rb);
    BeginStep(c, two, open, 1, d);
    var e := Overlap(c, one, two, now, None, None);
    evs := FourSteps(c, State(t, map[]), Other(EnqueueMany(map[a := ra])), State(one, map[]), Begin(0, d), State(one, open),
                     Other(EnqueueMany(map[b := rb])), State(two, open), Begin(1, d), e);
  }

  lemma FourSteps(c: Config, s0: State, e0: Event, s1: State, e1: Event, s2: State, e2: Event, s3: State, e3: Event, s4: State)
    returns (evs: seq<Event>)
    requires Gets(c, s0, [e0], s1) && Gets(c, s1, [e1], s2) && Gets(c, s2, [e2], s3) && Gets(c, s3, [e3], s4)
    ensures Gets(c, s0, evs, s4)
  {
    GetsThen(c, s0, [e0], s1, [e1], s2);
    GetsThen(c, s0, [e0] + [e1], s2, [e2], s3);
    GetsThen(c, s0, [e0] + [e1] + [e2], s3, [e3], s4);
    evs := [e0] + [e1] + [e2] + [e3];
  }

  // A dequeue of this table may claim one row.
  predicate RoomLeft(c: Config, t: Table, now: int) {
    && !Starter(c, now).Refused(t) && Q.MaxTasks(c.queue, 0, |c.Running(t)|) == Some(1)
    && (c.queue.rateLimit.Some? ==> Starter(c, now).Recent(t) < c.queue.rateLimit.value.limitPerPeriod)
  }

  lemma RoomStays(c: Config, t: Table, t': Table, now: int)
    requires RoomForOne(c, t, now) && c.Running(t') == c.Running(t) && Starter(c, now).Recent(t') == Starter(c, now).Recent(t)
    ensures RoomLeft(c, t', now)
  {
    assert Q.MaxTasks(c.queue, 0, |c.Running(t)|) == Some(1);
  }

  lemma OnlyIsFirst(c: Config, t: Table, a: string)
    requires c.Eligible(t) == {a}
    ensures IsFirst(c, t, a)
  {
  }

  // The arrivals, one after the other.
  lemma FirstSnapshot(c: Config, t: Table, a: string, one: Table, now: int)
    requires a !in t && With(t, a, one) && Waits(c, one[a]) && RoomForOne(c, t, now)
    ensures c.Eligible(one) == {a} && RoomLeft(c, one, now)
  {
    ArrivalWaits(c, t, a, one, now);
    RoomStays(c, t, one, now);
  }

  lemma SecondSnapshot(c: Config, one: Table, a: string, b: string, two: Table, now: int)
    requires b !in one && With(one, b, two) && Waits(c, two[b]) && c.Eligible(one) == {a} && RoomLeft(c, one, now)
    ensures c.Eligible(two) == {a, b} && RoomLeft(c, two, now)
  {
    ArrivalWaits(c, one, b, two, now);
  }

  lemma SnapshotsHaveRoom(c: Config, t: Table, a: string, b: string, one: Table, two: Table, now: int)
    requires Overtaken(c, t, a, b, one, two) && RoomForOne(c, t, now)
    ensures c.Eligible(one) == {a} && c.Eligible(two) == {a, b} && RoomLeft(c, one, now) && RoomLeft(c, two, now)
  {
    FirstSnapshot(c, t, a, one, now);
    SecondSnapshot(c, one, a, b, two, now);
  }

  lemma BothReady(c: Config, t: Table, a: string, b: string, one: Table, two: Table, now: int, s: State)
    requires Overtaken(c, t, a, b, one, two) && RoomForOne(c, t, now) && s == Overlap(c, one, two, now, None, None)
    ensures ReadyForOne(c, s, 0, a) && ReadyForOne(c, s, 1, b)
  {
    SnapshotsHaveRoom(c, t, a, b, one, two, now);
    OnlyIsFirst(c, one, a);
    assert Barred(s, 0) == {} && Barred(s, 1) == {};
  }

  lemma BothLock(c: Config, t: Table, a: string, b: string, one: Table, two: Table, now: int) returns (evs: seq<Event>)
    requires Overtaken(c, t, a, b, one, two) && RoomForOne(c, t, now)
    ensures Gets(c, Overlap(c, one, two, now, None, None), evs, Overlap(c, one, two, now, Some([a]), Some([b])))
  {
    var s0, s1, s2 := Overlap(c, one, two, now, None, None), Overlap(c, one, two, now, Some([a]), None), Overlap(c, one, two, now, Some([a]), Some([b]));
    BothReady(c, t, a, b, one, two, now, s0);
    TwoDequeuesLockExactly(c, s0, 0, 1, a, b);
    LocksFirst(c, one, two, now, a);
    LockStep(c, s0, 0, [a]);
    LockStep(c, s1, 1, [b]);
    LocksSecond(c, one, two, now, a, b);
    GetsThen(c, s0, [Lock(0, [a])], s1, [Lock(1, [b])], s2);
    evs := [Lock(0, [a])] + [Lock(1, [b])];
  }

  lemma LocksFirst(c: Config, one: Table, two: Table, now: int, a: string)
    ensures var s := Overlap(c, one, two, now, None, None);
            s.(open := s.open[0 := s.open[0].(sel := Some([a]))]) == Overlap(c, one, two, now, Some([a]), None)
  {
  }

  lemma LocksSecond(c: Config, one: Table, two: Table, now: int, a: string, b: string)
    ensures var s := Overlap(c, one, two, now, Some([a]), None);
            s.(open := s.open[1 := s.open[1].(sel := Some([b]))]) == Overlap(c, one, two, now, Some([a]), Some([b]))
  {
  }

  // The table after both commits.
  predicate BothStarted(c: Config, t: Table, a: string, b: string, t': Table, now: int) {
    && t'.Keys == t.Keys + {a, b} && a !in t && b !in t && a != b && (forall i | i in t :: t'[i] == t[i])
    && Runs(c, t'[a], now) && Runs(c, t'[b], now)
  }

  lemma BothClaim(c: Config, t: Table, a: string, b: string, one: Table, two: Table, now: int, s: State)
    requires Overtaken(c, t, a, b, one, two) && RoomForOne(c, t, now) && s == Overlap(c, one, two, now, Some([a]), Some([b]))
    ensures ClaimsOne(c, s.open[0], a, now) && ClaimsOne(c, s.open[1], b, now)
  {
    SnapshotsHaveRoom(c, t, a, b, one, two, now);
    LockedOne(c, s.open[0], a, now);
    LockedOne(c, s.open[1], b, now);
  }

  lemma StillClaimsOne(c: Config, tx: Tx, id: string, now: int, ids: set<string>)
    requires ClaimsOne(c, tx, id, now)
    ensures ClaimsOne(c, tx.(touched := tx.touched + ids), id, now)
  {
  }

  lemma LeftOpen(s: State, a: string)
    requires s.open.Keys == {0, 1}
    ensures Touch(s.open - {0}, {a}) == map[1 := s.open[1].(touched := s.open[1].touched + {a})]
  {
  }

  lemma StartedBoth(c: Config, t: Table, a: string, b: string, one: Table, two: Table, t1: Table, t2: Table, now: int)
    requires Overtaken(c, t, a, b, one, two) && With(two, a, t1) && Runs(c, t1[a], now) && With(t1, b, t2) && Runs(c, t2[b], now)
    ensures BothStarted(c, t, a, b, t2, now)
  {
  }

  lemma BothCommit(c: Config, t: Table, a: string, b: string, one: Table, two: Table, now: int, s: State)
    returns (evs: seq<Event>, t': Table)
    requires Overtaken(c, t, a, b, one, two) && s.t == two && s.open.Keys == {0, 1}
    requires ClaimsOne(c, s.open[0], a, now) && ClaimsOne(c, s.open[1], b, now)
    ensures BothStarted(c, t, a, b, t', now) && Gets(c, s, evs, State(t', map[]))
  {
    var t1 := CommitStep(c, s, 0, a, now);
    LeftOpen(s, a);
    var left := s.open[1].(touched := s.open[1].touched + {a});
    StillClaimsOne(c, s.open[1], b, now, {a});
    t' := LastCommit(c, t1, left, b, now);
    StartedBoth(c, t, a, b, one, two, t1, t', now);
    GetsThen(c, s, [Commit(0)], State(t1, map[1 := left]), [Commit(1)], State(t', map[]));
    evs := [Commit(0)] + [Commit(1)];
  }

  lemma LastCommit(c: Config, t: Table, tx: Tx, id: string, now: int) returns (t': Table)
    requires ClaimsOne(c, tx, id, now) && id in t && Waits(c, t[id])
    ensures With(t, id, t') && Runs(c, t'[id], now) && Gets(c, State(t, map[1 := tx]), [Commit(1)], State(t', map[]))
  {
    t' := CommitStep(c, State(t, map[1 := tx]), 1, id, now);
    assert Touch(map[1 := tx] - {1}, {id}) == map[];
  }

  /** With room for one row, two dequeues that overlap both start one, if the second row overtakes the first. */
  lemma BothStart(c: Config, t: Table, a: string, b: string, now: int) returns (evs: seq<Event>, t': Table)
    requires a !in t && b !in t && a != b && RoomForOne(c, t, now)
    ensures Gets(c, State(t, map[]), evs, State(t', map[])) && BothStarted(c, t, a, b, t', now)
  {
    var first, one, two := OverlapReached(c, t, a, b, now);
    var second := BothLock(c, t, a, b, one, two, now);
    var third;
    var s1, s2 := Overlap(c, one, two, now, None, None), Overlap(c, one, two, now, Some([a]), Some([b]));
    BothClaim(c, t, a, b, one, two, now, s2);
    third, t' := BothCommit(c, t, a, b, one, two, now, s2);
    GetsThen(c, s1, second, s2, third, State(t', map[]));
    GetsThen(c, State(t, map[]), first, s1, second + third, State(t', map[]));
    evs := first + (second + third);
  }

  // ---------- Filling the queue ----------

  // Starts this far apart do not count for each other.
  function Gap(c: Config): (g: nat)
    ensures g > 0
  {
    if c.queue.rateLimit.Some? && c.queue.rateLimit.value.periodMS > 0 then c.queue.rateLimit.value.periodMS + 1 else 1
  }

  // The start of row i: the first m are far apart, the others at one time.
  function StartOf(c: Config, m: nat, i: nat): int {
    (if i < m then i else m) * Gap(c)
  }

  // Rows 0 .. n-1 have been started; the first m of them still run.
  predicate Full(c: Config, m: nat, n: nat, t: Table) {
    && t.Keys == Names(n)
    && forall id | id in t :: if |id| < m then Runs(c, t[id], StartOf(c, m, |id|)) else HasEnded(c, t[id], StartOf(c, m, |id|))
  }

  lemma Spaced(i: nat, j: nat, g: nat)
    requires i < j
    ensures i * g + g <= j * g
  {
    assert (j - i - 1) * g >= 0;
    assert j * g == i * g + g + (j - i - 1) * g;
  }

  lemma NamesLength(n: nat)
    ensures forall id :: id in Names(n) <==> |id| < n && id == Name(|id|)
  {
    forall id | |id| < n && id == Name(|id|) ensures id in Names(n) {
    }
  }

  lemma FullRuns(c: Config, m: nat, n: nat, t: Table)
    requires Full(c, m, n, t)
    ensures c.Eligible(t) == {} && c.Running(t) == Names(if n < m then n else m)
  {
    NamesLength(n);
    NamesLength(if n < m then n else m);
  }

  lemma LateNames(m: nat, n: nat)
    ensures |Names(n) - Names(m)| == if n < m then 0 else n - m
    ensures forall id :: id in Names(n) - Names(m) <==> id in Names(n) && m <= |id|
  {
    NamesLength(n);
    NamesLength(m);
    NamesSize(n);
    NamesSize(m);
    if m <= n {
      assert Names(m) <= Names(n);
    } else {
      assert Names(n) - Names(m) == {};
    }
  }

  lemma LongAgo(c: Config, m: nat, n: nat, id: string)
    requires |id| < n && |id| < m && c.queue.rateLimit.Some?
    ensures StartOf(c, m, |id|) <= StartOf(c, m, n) - c.queue.rateLimit.value.periodMS
  {
    Spaced(|id|, if n < m then n else m, Gap(c));
  }

  lemma RecentIsLate(c: Config, m: nat, n: nat, t: Table, id: string, since: int)
    requires Full(c, m, n, t) && c.queue.rateLimit.Some? && since == StartOf(c, m, n) - c.queue.rateLimit.value.periodMS
    requires id in Q.RecentIn(t, c.Target(), since)
    ensures id in Names(n) - Names(m)
  {
    NamesLength(n);
    NamesLength(m);
    if |id| < m {
      LongAgo(c, m, n, id);
    }
  }

  lemma RecentSize(c: Config, t: Table, now: int)
    requires c.queue.rateLimit.Some?
    ensures Starter(c, now).Recent(t) == |Q.RecentIn(t, c.Target(), now - c.queue.rateLimit.value.periodMS)|
  {
  }

  lemma FewRecent(c: Config, m: nat, n: nat, t: Table, since: int)
    requires Full(c, m, n, t) && c.queue.rateLimit.Some? && since == StartOf(c, m, n) - c.queue.rateLimit.value.periodMS
    ensures |Q.RecentIn(t, c.Target(), since)| <= |Names(n) - Names(m)|
  {
    var recent, late := Q.RecentIn(t, c.Target(), since), Names(n) - Names(m);
    forall id | id in recent ensures id in late {
      RecentIsLate(c, m, n, t, id, since);
    }
    SubsetSize(recent, late);
  }

  // Of the rows started so far only those after the first m count as recent.
  lemma FullRecent(c: Config, m: nat, n: nat, t: Table)
    requires Full(c, m, n, t)
    ensures Starter(c, StartOf(c, m, n)).Recent(t) <= if n < m then 0 else n - m
  {
    if c.queue.rateLimit.Some? {
      var now := StartOf(c, m, n);
      RecentSize(c, t, now);
      FewRecent(c, m, n, t, now - c.queue.rateLimit.value.periodMS);
      LateNames(m, n);
    }
  }

  // The limits let the queue start something.
  predicate CanStart(c: Config, limit: nat) {
    c.queue.concurrency == Some(limit) && !NeverClaims(c)
  }

  // How many rows may be started and ended before the two: one less than the rate limit.
  function Spare(c: Config): nat {
    if c.queue.rateLimit.Some? then Q.Minus(c.queue.rateLimit.value.limitPerPeriod, 1) else 0
  }

  lemma FullHasRoom(c: Config, limit: nat, n: nat, t: Table)
    requires CanStart(c, limit) && n <= limit - 1 + Spare(c) && Full(c, limit - 1, n, t)
    ensures HasRoom(c, t, StartOf(c, limit - 1, n))
    ensures limit - 1 <= n ==> RoomForOne(c, t, StartOf(c, limit - 1, n))
  {
    FullRuns(c, limit - 1, n, t);
    NamesSize(if n < limit - 1 then n else limit - 1);
    FullRecent(c, limit - 1, n, t);
  }

  lemma FullGrows(c: Config, m: nat, n: nat, t: Table, t': Table)
    requires Full(c, m, n, t) && With(t, Name(n), t')
    requires if n < m then Runs(c, t'[Name(n)], StartOf(c, m, n)) else HasEnded(c, t'[Name(n)], StartOf(c, m, n))
    ensures Full(c, m, n + 1, t')
  {
    NamesLength(n);
    NamesLength(n + 1);
    assert t'.Keys == Names(n + 1);
  }

  lemma NextName(n: nat)
    ensures Name(n) !in Names(n) && Name(n + 1) !in Names(n) && Name(n) != Name(n + 1)
  {
    NamesLength(n);
    NamesDiffer(n, n + 1);
  }

  lemma FillOne(c: Config, limit: nat, n: nat, t: Table) returns (evs: seq<Event>, t': Table)
    requires CanStart(c, limit) && n < limit - 1 + Spare(c) && Full(c, limit - 1, n, t)
    ensures Gets(c, State(t, map[]), evs, State(t', map[])) && Full(c, limit - 1, n + 1, t')
  {
    var m, now := limit - 1, StartOf(c, limit - 1, n);
    FullHasRoom(c, limit, n, t);
    NextName(n);
    evs, t' := Serve(c, t, Name(n), now);
    if n >= m {
      var run, end := t', [];
      end, t' := EndOne(c, run, Name(n), now);
      GetsThen(c, State(t, map[]), evs, State(run, map[]), end, State(t', map[]));
      evs := evs + end;
    }
    FullGrows(c, m, n, t, t');
  }

  lemma Fill(c: Config, limit: nat, n: nat) returns (evs: seq<Event>, t: Table)
    requires CanStart(c, limit) && n <= limit - 1 + Spare(c)
    ensures Gets(c, Blank, evs, State(t, map[])) && Full(c, limit - 1, n, t)
  {
    evs, t := [], map[];
    assert Full(c, limit - 1, 0, t);
    var k := 0;
    while k != n
      invariant 0 <= k <= n && Gets(c, Blank, evs, State(t, map[])) && Full(c, limit - 1, k, t)
    {
      var more, t' := FillOne(c, limit, k, t);
      GetsThen(c, Blank, evs, State(t, map[]), more, State(t', map[]));
      evs, t := evs + more, t';
      k := k + 1;
    }
  }

  // ---------- Main results ----------

  lemma BothRun(c: Config, t: Table, a: string, b: string, t': Table, now: int)
    requires BothStarted(c, t, a, b, t', now)
    ensures |c.Running(t')| == |c.Running(t)| + 2
  {
    assert c.Running(t') == c.Running(t) + {a, b};
    TwoMore(c.Running(t), a, b);
  }

  lemma LateInWindow(c: Config, m: nat, n: nat, t: Table, a: string, b: string, t': Table, rate: Q.RateLimit, now: int, id: string)
    requires Full(c, m, n, t) && BothStarted(c, t, a, b, t', now) && now == StartOf(c, m, n) && m <= n
    requires c.queue.rateLimit == Some(rate) && rate.periodMS > 0 && id in Names(n) - Names(m) + {a, b}
    ensures id in Q.Window(t', c.Target(), rate.periodMS, now)
  {
    NamesLength(n);
    NamesLength(m);
  }

  // The rows that were started last, and the two.
  lemma BothInWindow(c: Config, m: nat, n: nat, t: Table, a: string, b: string, t': Table, rate: Q.RateLimit, now: int)
    requires Full(c, m, n, t) && BothStarted(c, t, a, b, t', now) && now == StartOf(c, m, n) && m <= n
    requires c.queue.rateLimit == Some(rate) && rate.periodMS > 0
    ensures |Q.Window(t', c.Target(), rate.periodMS, now)| >= n - m + 2
  {
    LateNames(m, n);
    var late, w := Names(n) - Names(m) + {a, b}, Q.Window(t', c.Target(), rate.periodMS, now);
    forall id | id in late ensures id in w {
      LateInWindow(c, m, n, t, a, b, t', rate, now, id);
    }
    TwoMore(Names(n) - Names(m), a, b);
    SubsetSize(late, w);
  }

  lemma TwoMore(s: set<string>, a: string, b: string)
    requires a !in s && b !in s && a != b
    ensures |s + {a, b}| == |s| + 2
  {
    assert s + {a, b} == s + {a} + {b};
  }

  /** Every queue that can start something can exceed its global limit, and its rate limit in the same interleaving. */
  lemma OvertakingExceedsLimits(c: Config, limit: nat) returns (evs: seq<Event>)
    requires CanStart(c, limit)
    ensures History(c, Blank, evs) && |c.Running(Run(c, Blank, evs).t)| == limit + 1
    ensures c.queue.rateLimit.Some? && c.queue.rateLimit.value.periodMS > 0 ==>
              !Q.WindowsOk(Run(c, Blank, evs).t, c.Target(), c.queue.rateLimit.value)
  {
    var m, n := limit - 1, limit - 1 + Spare(c);
    var a, b, now := Name(n), Name(n + 1), StartOf(c, m, n);
    var first, t := Fill(c, limit, n);
    NextName(n);
    FullHasRoom(c, limit, n, t);
    var second, t' := BothStart(c, t, a, b, now);
    GetsThen(c, Blank, first, State(t, map[]), second, State(t', map[]));
    evs := first + second;
    BothRun(c, t, a, b, t', now);
    if c.queue.rateLimit.Some? && c.queue.rateLimit.value.periodMS > 0 {
      BothInWindow(c, m, n, t, a, b, t', c.queue.rateLimit.value, now);
    }
  }

  lemma NothingRuns(c: Config, evs: seq<Event>)
    requires NeverClaims(c) && History(c, Blank, evs)
    ensures c.Running(Run(c, Blank, evs).t) == {}
  {
    AlwaysStill(c, Blank, evs);
  }

  /** The exact condition on a queue: its global limit holds in every interleaving exactly if it never claims anything. */
  lemma LimitKeptExactly(c: Config, limit: nat)
    requires c.queue.concurrency == Some(limit)
    ensures LimitKept(c, limit) <==> NeverClaims(c)
  {
    if NeverClaims(c) {
      forall evs | History(c, Blank, evs) ensures |c.Running(Run(c, Blank, evs).t)| <= limit {
        NothingRuns(c, evs);
      }
    } else {
      var evs := OvertakingExceedsLimits(c, limit);
    }
  }

  /** ... and its rate limit exactly if it never claims anything, or no window contains an instant. */
  lemma WindowsKeptExactly(c: Config, rate: Q.RateLimit)
    requires c.queue.rateLimit == Some(rate)
    ensures WindowsKept(c, rate) <==> Degenerate(c, rate)
  {
    if Degenerate(c, rate) {
      forall evs | History(c, Blank, evs) ensures Q.WindowsOk(Run(c, Blank, evs).t, c.Target(), rate) {
        DegenerateKeeps(c, rate, evs);
      }
    } else if c.queue.concurrency.None? {
      var evs := TooManyStarts(c, rate);
      assert !Q.WindowsOk(Run(c, Blank, evs).t, c.Target(), rate);
    } else {
      var evs := OvertakingExceedsLimits(c, c.queue.concurrency.value);
    }
  }
}
