/**
Dequeueing with global, worker and rate limits, one dequeue transaction at a time.

A dequeue of a queue (or of one partition of a partitioned queue) counts what runs and what started recently,
selects the first ENQUEUED rows in (priority, created_at) order, and claims them until a limit is reached.
*/
module QueueDispatch {
  import opened Common
  import opened WorkflowStatus
  import opened StatusMachine

  datatype RateLimit = RateLimit(limitPerPeriod: nat, periodMS: int)

  datatype Queue = Queue(
    name: string,
    concurrency: Option<nat>,
    workerConcurrency: Option<nat>,
    rateLimit: Option<RateLimit>)

  // A whole queue, or one partition of it.
  datatype Scope = Scope(queue: string, partition: Option<string>)

  predicate InScope(row: Row, scope: Scope) {
    row.queue == Some(scope.queue) && (scope.partition.Some? ==> row.partition == scope.partition)
  }

  function PendingIn(t: Table, scope: Scope): set<string> {
    set id | id in t && InScope(t[id], scope) && t[id].status.Pending?
  }

  // Rows that started after `since`, as the rate limiter counts them.
  function RecentIn(t: Table, scope: Scope, since: int): set<string> {
    set id | id in t && InScope(t[id], scope) && t[id].rateLimited && !Waiting(t[id].status)
             && t[id].startedAt.Some? && t[id].startedAt.value > since
  }

  function EligibleIn(t: Table, scope: Scope, version: string, isLatest: bool): set<string> {
    set id | id in t && InScope(t[id], scope) && t[id].status.Enqueued?
             && (t[id].appVersion == Some(version) || (isLatest && t[id].appVersion.None?))
  }

  // ORDER BY priority ASC, created_at ASC
  predicate Before(a: Row, b: Row) {
    a.priority < b.priority || (a.priority == b.priority && a.createdAt <= b.createdAt)
  }

  function Ids(s: seq<string>): set<string> {
    set x | x in s
  }

  predicate Distinct(s: seq<string>) {
    forall i, j | 0 <= i < j < |s| :: s[i] != s[j]
  }

  // SELECT ... ORDER BY ... LIMIT: a sorted list of eligible rows that no row left out precedes strictly.
  predicate IsSelection(t: Table, eligible: set<string>, limit: Option<nat>, sel: seq<string>)
    requires eligible <= t.Keys
  {
    && Distinct(sel) && Ids(sel) <= eligible
    && (forall i, j | 0 <= i < j < |sel| :: Before(t[sel[i]], t[sel[j]]))
    && (forall i, x | 0 <= i < |sel| && x in eligible - Ids(sel) :: Before(t[sel[i]], t[x]))
    && |sel| == (if limit.Some? && limit.value < |eligible| then limit.value else |eligible|)
  }

  function Minus(a: nat, b: nat): nat {
    if a < b then 0 else a - b
  }

  // How many tasks the concurrency limits leave; None stands for no limit.
  function MaxTasks(queue: Queue, localRunning: nat, pending: nat): Option<nat> {
    var byWorker := if queue.workerConcurrency.Some? then Some(Minus(queue.workerConcurrency.value, localRunning)) else None;
    var byQueue := if queue.concurrency.Some? then Some(Minus(queue.concurrency.value, pending)) else None;
    if byWorker.None? then byQueue
    else if byQueue.None? then byWorker
    else if byQueue.value < byWorker.value then byQueue else byWorker
  }

  // One dequeue request and what it claimed.
  datatype Dequeue = Dequeue(
    queue: Queue, partition: Option<string>, executor: string, version: string, isLatest: bool,
    localRunning: nat, now: int, dbNow: int, claimed: seq<string>)
  {
    function Target(): Scope {
      Scope(queue.name, partition)
    }

    function Update(): Op {
      Claim(Ids(claimed), executor, version, now, dbNow, queue.rateLimit.Some?)
    }

    function Recent(t: Table): nat {
      if queue.rateLimit.None? then 0 else |RecentIn(t, Target(), now - queue.rateLimit.value.periodMS)|
    }

    // Before the rows are selected: the rate limit is used up, or the concurrency limits leave nothing.
    predicate Refused(t: Table) {
      || (queue.rateLimit.Some? && Recent(t) >= queue.rateLimit.value.limitPerPeriod)
      || MaxTasks(queue, localRunning, |PendingIn(t, Target())|) == Some(0)
    }

    // The claims allowed out of a selection of n rows.
    function Allowed(t: Table, n: nat): (k: nat)
      ensures k <= n
    {
      if queue.rateLimit.Some? && queue.rateLimit.value.limitPerPeriod - Recent(t) < n
      then Minus(queue.rateLimit.value.limitPerPeriod, Recent(t)) else n
    }

    // The claims are a legal outcome of the request on this table.
    ghost predicate Legal(t: Table) {
      if Refused(t) then claimed == []
      else exists sel :: Selects(t, sel) && claimed == sel[..Allowed(t, |sel|)]
    }

    predicate Selects(t: Table, sel: seq<string>) {
      IsSelection(t, EligibleIn(t, Target(), version, isLatest), MaxTasks(queue, localRunning, |PendingIn(t, Target())|), sel)
    }
  }

  // ---------- Cardinalities ----------

  lemma UnionSize<T>(a: set<T>, b: set<T>)
    ensures |a + b| <= |a| + |b|
  {
    assert a + b == a + (b - a);
    SubsetSize(b - a, b);
  }

  lemma {:induction false} IdsSize(s: seq<string>)
    ensures |Ids(s)| <= |s|
  {
    if |s| > 0 {
      IdsSize(s[1..]);
      assert Ids(s) == {s[0]} + Ids(s[1..]);
      UnionSize({s[0]}, Ids(s[1..]));
    }
  }

  // ---------- One dequeue ----------

  lemma ClaimsBounded(d: Dequeue, t: Table)
    requires d.Legal(t)
    ensures d.queue.concurrency.Some? ==> |d.claimed| <= Minus(d.queue.concurrency.value, |PendingIn(t, d.Target())|)
    ensures d.queue.workerConcurrency.Some? ==> |d.claimed| <= Minus(d.queue.workerConcurrency.value, d.localRunning)
    ensures d.queue.rateLimit.Some? ==> |d.claimed| <= Minus(d.queue.rateLimit.value.limitPerPeriod, d.Recent(t))
    ensures Ids(d.claimed) <= EligibleIn(t, d.Target(), d.version, d.isLatest)
  {
    if !d.Refused(t) {
      var sel :| d.Selects(t, sel) && d.claimed == sel[..d.Allowed(t, |sel|)];
      forall id | id in d.claimed ensures id in EligibleIn(t, d.Target(), d.version, d.isLatest) {
        assert id in Ids(sel);
      }
    }
  }

  // Sorted, and preceded strictly by no eligible row outside it.
  predicate LeadsOrder(t: Table, eligible: set<string>, claimed: seq<string>)
    requires eligible <= t.Keys
  {
    && Distinct(claimed) && (forall id | id in claimed :: id in eligible)
    && (forall i, j | 0 <= i < j < |claimed| :: Before(t[claimed[i]], t[claimed[j]]))
    && (forall i, x | 0 <= i < |claimed| && x in eligible && x !in claimed :: Before(t[claimed[i]], t[x]))
  }

  lemma PrefixLeads(t: Table, eligible: set<string>, limit: Option<nat>, sel: seq<string>, k: nat)
    requires eligible <= t.Keys && IsSelection(t, eligible, limit, sel) && k <= |sel|
    ensures LeadsOrder(t, eligible, sel[..k])
  {
    forall id | id in sel[..k] ensures id in eligible {
      assert id in Ids(sel);
    }
    forall i, x | 0 <= i < k && x in eligible && x !in sel[..k] ensures Before(t[sel[i]], t[x]) {
      if x in sel {
        var j :| 0 <= j < |sel| && sel[j] == x;
        assert k <= j;
      } else {
        assert x in eligible - Ids(sel);
      }
    }
  }

  /** The claims are a prefix of the eligible rows in (priority, created_at) order. */
  lemma ClaimsArePrefix(d: Dequeue, t: Table)
    requires d.Legal(t)
    ensures LeadsOrder(t, EligibleIn(t, d.Target(), d.version, d.isLatest), d.claimed)
  {
    if !d.Refused(t) {
      var sel :| d.Selects(t, sel) && d.claimed == sel[..d.Allowed(t, |sel|)];
      PrefixLeads(t, EligibleIn(t, d.Target(), d.version, d.isLatest),
                  MaxTasks(d.queue, d.localRunning, |PendingIn(t, d.Target())|), sel, d.Allowed(t, |sel|));
    }
  }

  // ---------- Whole runs ----------

  datatype Step = Plain(op: Op) | Deq(d: Dequeue)

  // The queues' configuration does not change during the run.
  datatype Config = Config(queues: map<string, Queue>, partitioned: set<string>)

  ghost predicate Possible(c: Config, t: Table, step: Step) {
    match step
    case Plain(op) => Enabled(op) && !op.Claim?
    case Deq(d) =>
      && d.queue.name in c.queues && d.queue == c.queues[d.queue.name]
      && (d.partition.Some? <==> d.queue.name in c.partitioned)
      && d.Legal(t)
  }

  function StepOp(step: Step): Op {
    match step
    case Plain(op) => op
    case Deq(d) => d.Update()
  }

  ghost predicate History(c: Config, t: Table, steps: seq<Step>)
    decreases |steps|
  {
    |steps| == 0 || (Possible(c, t, steps[0]) && History(c, Next(t, StepOp(steps[0])), steps[1..]))
  }

  function Run(t: Table, steps: seq<Step>): Table
    decreases |steps|
  {
    if |steps| == 0 then t else Run(Next(t, StepOp(steps[0])), steps[1..])
  }

  predicate WholeScope(c: Config, scope: Scope) {
    scope.queue in c.queues && (scope.partition.Some? <==> scope.queue in c.partitioned)
      && c.queues[scope.queue].name == scope.queue
  }

  // The rows stamped by dequeues of a rate-limited queue as started in (hi - period, hi].
  function Window(t: Table, scope: Scope, period: int, hi: int): set<string> {
    set id | id in t && InScope(t[id], scope) && t[id].rateLimited && t[id].startedAt.Some?
             && hi - period < t[id].startedAt.value <= hi
  }

  // An operation other than a claim makes no queued row PENDING and stamps none.
  lemma PlainPending(op: Op, id: string, row: Row)
    requires !op.Claim?
    ensures var r := NextRow(op, id, row);
            r.partition == row.partition && (r.status.Pending? && r.queue.Some? ==> row.status.Pending? && row.queue == r.queue)
  {
  }

  lemma PlainStamp(op: Op, id: string, row: Row)
    requires !op.Claim?
    ensures var r := NextRow(op, id, row);
            && r.partition == row.partition
            && (r.startedAt.Some? ==> row.startedAt == r.startedAt && row.rateLimited == r.rateLimited && row.queue == r.queue)
  {
  }

  lemma PlainShrinksPending(t: Table, op: Op, scope: Scope)
    requires Enabled(op) && !op.Claim?
    ensures PendingIn(Next(t, op), scope) <= PendingIn(t, scope)
  {
    forall id | id in PendingIn(Next(t, op), scope) ensures id in PendingIn(t, scope) {
      if id in t {
        PlainPending(op, id, t[id]);
      }
    }
  }

  lemma PlainShrinksWindow(t: Table, op: Op, scope: Scope, period: int, hi: int)
    requires Enabled(op) && !op.Claim?
    ensures Window(Next(t, op), scope, period, hi) <= Window(t, scope, period, hi)
  {
    forall id | id in Window(Next(t, op), scope, period, hi) ensures id in Window(t, scope, period, hi) {
      if id in t {
        PlainStamp(op, id, t[id]);
      }
    }
  }

  lemma ClaimedRow(op: Op, id: string, row: Row)
    requires op.Claim?
    ensures id in op.ids && row.status.Enqueued? ==>
              var r := NextRow(op, id, row);
              && r.status.Pending? && r.startedAt == Some(op.startTime) && r.rateLimited == op.rateLimited
              && r.queue == row.queue && r.partition == row.partition
    ensures !(id in op.ids && row.status.Enqueued?) ==> NextRow(op, id, row) == row
  {
  }

  // A dequeue turns exactly its claims PENDING, with the dequeue's stamp, and touches nothing else.
  lemma ClaimEffect(t: Table, d: Dequeue)
    requires d.Legal(t)
    ensures var t' := Next(t, d.Update());
            && t'.Keys == t.Keys
            && (forall id | id in t && id !in Ids(d.claimed) :: t'[id] == t[id])
            && (forall id | id in Ids(d.claimed) ::
                  && id in t && InScope(t[id], d.Target()) && t[id].status.Enqueued?
                  && t'[id].status.Pending? && t'[id].startedAt == Some(d.now) && t'[id].rateLimited == d.queue.rateLimit.Some?
                  && t'[id].queue == t[id].queue && t'[id].partition == t[id].partition)
  {
    ClaimsBounded(d, t);
    forall id | id in t {
      ClaimedRow(d.Update(), id, t[id]);
    }
  }

  lemma OtherScope(c: Config, t: Table, d: Dequeue, scope: Scope)
    requires WholeScope(c, scope) && Possible(c, t, Deq(d)) && d.Target() != scope
    ensures forall id | id in Ids(d.claimed) :: id in t && !InScope(t[id], scope) && !InScope(Next(t, d.Update())[id], scope)
  {
    ClaimEffect(t, d);
  }

  // ---------- The global concurrency limit ----------

  lemma DequeuePending(c: Config, t: Table, d: Dequeue, scope: Scope, limit: nat)
    requires WholeScope(c, scope) && Possible(c, t, Deq(d)) && c.queues[scope.queue].concurrency == Some(limit)
    requires |PendingIn(t, scope)| <= limit
    ensures |PendingIn(Next(t, d.Update()), scope)| <= limit
  {
    var t' := Next(t, d.Update());
    ClaimEffect(t, d);
    if d.Target() == scope {
      ClaimsBounded(d, t);
      assert PendingIn(t', scope) <= PendingIn(t, scope) + Ids(d.claimed);
      SubsetSize(PendingIn(t', scope), PendingIn(t, scope) + Ids(d.claimed));
      UnionSize(PendingIn(t, scope), Ids(d.claimed));
      IdsSize(d.claimed);
    } else {
      OtherScope(c, t, d, scope);
      assert PendingIn(t', scope) <= PendingIn(t, scope);
      SubsetSize(PendingIn(t', scope), PendingIn(t, scope));
    }
  }

  /**
  With atomic dequeues the PENDING rows of a queue with a concurrency limit (of each partition, if it is
  partitioned) never outnumber the limit, whatever enqueues, completions, cancellations, resumes and recoveries
  happen in between.
  */
  lemma {:induction false} ConcurrencyLimitHolds(c: Config, t: Table, steps: seq<Step>, scope: Scope, limit: nat)
    requires WholeScope(c, scope) && c.queues[scope.queue].concurrency == Some(limit)
    requires Inv(t) && |PendingIn(t, scope)| <= limit && History(c, t, steps)
    ensures |PendingIn(Run(t, steps), scope)| <= limit
    decreases |steps|
  {
    if |steps| > 0 {
      var t' := Next(t, StepOp(steps[0]));
      match steps[0] {
        case Plain(op) =>
          StepKeeps(t, op);
          PlainShrinksPending(t, op, scope);
          SubsetSize(PendingIn(t', scope), PendingIn(t, scope));
        case Deq(d) =>
          StepKeeps(t, d.Update());
          DequeuePending(c, t, d, scope, limit);
      }
      ConcurrencyLimitHolds(c, t', steps[1..], scope, limit);
    }
  }

  // ---------- The sliding-window rate limit ----------

  ghost predicate WindowsOk(t: Table, scope: Scope, rate: RateLimit) {
    forall hi: int :: |Window(t, scope, rate.periodMS, hi)| <= rate.limitPerPeriod
  }

  // Windows that end before the dequeue do not see its claims.
  lemma EarlierWindow(t: Table, d: Dequeue, scope: Scope, period: int, hi: int)
    requires d.Legal(t) && (hi < d.now || d.claimed == [])
    ensures Window(Next(t, d.Update()), scope, period, hi) <= Window(t, scope, period, hi)
  {
    ClaimEffect(t, d);
  }

  // Windows that end later hold what the dequeue counted as recent and what it claimed.
  lemma LaterWindow(t: Table, d: Dequeue, period: int, hi: int)
    requires Inv(t) && d.Legal(t) && d.now <= hi
    ensures Window(Next(t, d.Update()), d.Target(), period, hi) <= RecentIn(t, d.Target(), d.now - period) + Ids(d.claimed)
  {
    ClaimEffect(t, d);
    forall id | id in Window(Next(t, d.Update()), d.Target(), period, hi)
      ensures id in RecentIn(t, d.Target(), d.now - period) + Ids(d.claimed)
    {
      assert RowOk(t[id]);
    }
  }

  lemma RecentSize(t: Table, d: Dequeue, rate: RateLimit)
    requires d.queue.rateLimit == Some(rate)
    ensures d.Recent(t) == |RecentIn(t, d.Target(), d.now - rate.periodMS)|
  {
  }

  lemma ClaimsFitRate(t: Table, d: Dequeue, rate: RateLimit)
    requires d.Legal(t) && d.queue.rateLimit == Some(rate) && d.claimed != []
    ensures d.Recent(t) + |Ids(d.claimed)| <= rate.limitPerPeriod
  {
    ClaimsBounded(d, t);
    IdsSize(d.claimed);
  }

  lemma RecentPlusClaims(t: Table, d: Dequeue, rate: RateLimit)
    requires d.Legal(t) && d.queue.rateLimit == Some(rate) && d.claimed != []
    ensures |RecentIn(t, d.Target(), d.now - rate.periodMS) + Ids(d.claimed)| <= rate.limitPerPeriod
  {
    ClaimsFitRate(t, d, rate);
    RecentSize(t, d, rate);
    UnionSize(RecentIn(t, d.Target(), d.now - rate.periodMS), Ids(d.claimed));
  }

  lemma DequeueWindow(t: Table, d: Dequeue, rate: RateLimit, hi: int)
    requires Inv(t) && d.Legal(t) && d.queue.rateLimit == Some(rate)
    requires |Window(t, d.Target(), rate.periodMS, hi)| <= rate.limitPerPeriod
    ensures |Window(Next(t, d.Update()), d.Target(), rate.periodMS, hi)| <= rate.limitPerPeriod
  {
    var after := Window(Next(t, d.Update()), d.Target(), rate.periodMS, hi);
    if hi < d.now || d.claimed == [] {
      EarlierWindow(t, d, d.Target(), rate.periodMS, hi);
      SubsetSize(after, Window(t, d.Target(), rate.periodMS, hi));
    } else {
      LaterWindow(t, d, rate.periodMS, hi);
      RecentPlusClaims(t, d, rate);
      SubsetSize(after, RecentIn(t, d.Target(), d.now - rate.periodMS) + Ids(d.claimed));
    }
  }

  lemma OtherWindow(c: Config, t: Table, d: Dequeue, scope: Scope, period: int, hi: int)
    requires WholeScope(c, scope) && Possible(c, t, Deq(d)) && d.Target() != scope
    ensures Window(Next(t, d.Update()), scope, period, hi) <= Window(t, scope, period, hi)
  {
    ClaimEffect(t, d);
    OtherScope(c, t, d, scope);
  }

  lemma DequeueWindows(c: Config, t: Table, d: Dequeue, scope: Scope, rate: RateLimit)
    requires WholeScope(c, scope) && Possible(c, t, Deq(d)) && c.queues[scope.queue].rateLimit == Some(rate)
    requires Inv(t) && WindowsOk(t, scope, rate)
    ensures WindowsOk(Next(t, d.Update()), scope, rate)
  {
    var t' := Next(t, d.Update());
    forall hi: int ensures |Window(t', scope, rate.periodMS, hi)| <= rate.limitPerPeriod {
      assert |Window(t, scope, rate.periodMS, hi)| <= rate.limitPerPeriod;
      if d.Target() == scope {
        DequeueWindow(t, d, rate, hi);
      } else {
        OtherWindow(c, t, d, scope, rate.periodMS, hi);
        SubsetSize(Window(t', scope, rate.periodMS, hi), Window(t, scope, rate.periodMS, hi));
      }
    }
  }

  lemma PlainWindows(t: Table, op: Op, scope: Scope, rate: RateLimit)
    requires Enabled(op) && !op.Claim? && WindowsOk(t, scope, rate)
    ensures WindowsOk(Next(t, op), scope, rate)
  {
    forall hi: int ensures |Window(Next(t, op), scope, rate.periodMS, hi)| <= rate.limitPerPeriod {
      assert |Window(t, scope, rate.periodMS, hi)| <= rate.limitPerPeriod;
      PlainShrinksWindow(t, op, scope, rate.periodMS, hi);
      SubsetSize(Window(Next(t, op), scope, rate.periodMS, hi), Window(t, scope, rate.periodMS, hi));
    }
  }

  /**
  The sliding window: with serial dequeues, in every reachable state and for every instant, the rows of a
  rate-limited queue still stamped as started in the period up to that instant are at most the limit. The start
  times need not even be ordered, because the count has no upper bound on the stamp.
  */
  lemma {:induction false} RateLimitHolds(c: Config, t: Table, steps: seq<Step>, scope: Scope, rate: RateLimit)
    requires WholeScope(c, scope) && c.queues[scope.queue].rateLimit == Some(rate)
    requires Inv(t) && WindowsOk(t, scope, rate) && History(c, t, steps)
    ensures WindowsOk(Run(t, steps), scope, rate)
    decreases |steps|
  {
    if |steps| > 0 {
      match steps[0] {
        case Plain(op) =>
          StepKeeps(t, op);
          PlainWindows(t, op, scope, rate);
        case Deq(d) =>
          StepKeeps(t, d.Update());
          DequeueWindows(c, t, d, scope, rate);
      }
      RateLimitHolds(c, Next(t, StepOp(steps[0])), steps[1..], scope, rate);
    }
  }

  /** Both limits hold of every run that begins with an empty table. */
  lemma LimitsFromEmptyTable(c: Config, steps: seq<Step>, scope: Scope)
    requires WholeScope(c, scope) && History(c, map[], steps)
    ensures var t := Run(map[], steps); var queue := c.queues[scope.queue];
            && (queue.concurrency.Some? ==> |PendingIn(t, scope)| <= queue.concurrency.value)
            && (queue.rateLimit.Some? ==> forall hi: int ::
                  |Window(t, scope, queue.rateLimit.value.periodMS, hi)| <= queue.rateLimit.value.limitPerPeriod)
  {
    var queue := c.queues[scope.queue];
    if queue.concurrency.Some? {
      ConcurrencyLimitHolds(c, map[], steps, scope, queue.concurrency.value);
    }
    if queue.rateLimit.Some? {
      RateLimitHolds(c, map[], steps, scope, queue.rateLimit.value);
    }
  }
}
