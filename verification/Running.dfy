/**
The workflows that run in one process: the registry of running workflows, its guarded release, and the worker's
concurrency limit that the queue runner derives from it.
*/
module Running {
  import opened Common

  // Who runs a workflow, and where it was dequeued from. The run's number is not stored in the registry; it names the run in the results.
  datatype Entry = Entry(run: nat, queue: Option<string>, partition: Option<string>)

  datatype Run = Run(id: string, released: bool)

  // A row this process has marked as its own and not yet dispatched; `partition` is the row's own key.
  datatype Claim = Claim(id: string, queue: string, partition: Option<string>)

  datatype State = State(entries: map<string, Entry>, runs: map<nat, Run>, claimed: set<Claim>)

  function RunningIn(entries: map<string, Entry>, queue: Option<string>, partition: Option<string>): set<string> {
    set id | id in entries && entries[id].queue == queue && entries[id].partition == partition
  }

  function ClaimedIn(claimed: set<Claim>, queue: string, partition: Option<string>): set<Claim> {
    set c | c in claimed && c.queue == queue && c.partition == partition
  }

  datatype Event =
    | Invoke(run: nat, id: string)                                          // a direct call
    | Dispatch(run: nat, claim: Claim)                                      // a claimed workflow is started
    | Release(run: nat)                                                     // before the outcome is stored, or when the run settles
    | Poll(queue: string, partition: Option<string>, limit: Option<nat>, claims: set<Claim>)

  function Room(limit: nat, running: nat): nat {
    if limit < running then 0 else limit - running
  }

  predicate Possible(limits: map<string, nat>, s: State, ev: Event) {
    match ev
    case Invoke(r, _) => r !in s.runs
    case Dispatch(r, c) => r !in s.runs && c in s.claimed
    case Release(r) => r in s.runs
    case Poll(q, p, limit, claims) =>
      // The runner dispatches all claims of a queue or partition before it polls it again.
      && ClaimedIn(s.claimed, q, p) == {}
      && limit == (if q in limits then Some(limits[q]) else None)
      && (forall c | c in claims :: c.queue == q)
      && (limit.Some? ==> |claims| <= Room(limit.value, |RunningIn(s.entries, Some(q), p)|))
  }

  // A run is started and registered unless the workflow is registered already.
  function Started(s: State, r: nat, id: string, queue: Option<string>, partition: Option<string>): State {
    if id in s.entries then s
    else s.(entries := s.entries[id := Entry(r, queue, partition)], runs := s.runs[r := Run(id, false)])
  }

  function NextState(limits: map<string, nat>, s: State, ev: Event): State
    requires Possible(limits, s, ev)
  {
    match ev
    case Invoke(r, id) => Started(s, r, id, None, None)
    case Dispatch(r, c) => Started(s.(claimed := s.claimed - {c}), r, c.id, Some(c.queue), c.partition)
    case Release(r) =>
      if s.runs[r].released then s
      else s.(runs := s.runs[r := s.runs[r].(released := true)], entries := s.entries - {s.runs[r].id})
    case Poll(_, _, _, claims) => s.(claimed := s.claimed + claims)
  }

  predicate History(limits: map<string, nat>, s: State, evs: seq<Event>)
    decreases |evs|
  {
    |evs| == 0 || (Possible(limits, s, evs[0]) && History(limits, NextState(limits, s, evs[0]), evs[1..]))
  }

  function RunAll(limits: map<string, nat>, s: State, evs: seq<Event>): State
    requires History(limits, s, evs)
    decreases |evs|
  {
    if |evs| == 0 then s else RunAll(limits, NextState(limits, s, evs[0]), evs[1..])
  }

  const Idle := State(map[], map[], {})

  // ---------- One run per workflow ----------

  // The registry holds exactly the runs that are not released.
  predicate Exclusive(s: State) {
    && (forall r | r in s.runs && !s.runs[r].released :: s.runs[r].id in s.entries && s.entries[s.runs[r].id].run == r)
    && (forall id | id in s.entries :: s.entries[id].run in s.runs && s.runs[s.entries[id].run] == Run(id, false))
  }

  lemma {:induction false} ExclusiveAlways(limits: map<string, nat>, s: State, evs: seq<Event>)
    requires Exclusive(s) && History(limits, s, evs)
    ensures Exclusive(RunAll(limits, s, evs))
    decreases |evs|
  {
    if |evs| > 0 {
      assert Exclusive(NextState(limits, s, evs[0]));
      ExclusiveAlways(limits, NextState(limits, s, evs[0]), evs[1..]);
    }
  }

  /** No workflow ID has two unreleased runs, and every registered workflow has one. */
  lemma OneRunPerWorkflow(limits: map<string, nat>, evs: seq<Event>)
    requires History(limits, Idle, evs)
    ensures var e := RunAll(limits, Idle, evs);
            && (forall a, b | a in e.runs && b in e.runs && !e.runs[a].released && !e.runs[b].released && e.runs[a].id == e.runs[b].id :: a == b)
            && (forall id | id in e.entries :: exists r :: r in e.runs && e.runs[r] == Run(id, false))
  {
    ExclusiveAlways(limits, Idle, evs);
    var e := RunAll(limits, Idle, evs);
    forall id | id in e.entries ensures exists r :: r in e.runs && e.runs[r] == Run(id, false) {
      assert e.runs[e.entries[id].run] == Run(id, false);
    }
  }

  /** A finished run's late cleanup leaves every other run's entry alone: it removes at most its own. */
  lemma CleanupRemovesOwnEntryOnly(limits: map<string, nat>, s: State, r: nat, id: string)
    requires Exclusive(s) && r in s.runs && id in s.entries
    ensures id in NextState(limits, s, Release(r)).entries <==> s.entries[id].run != r
  {
  }

  // What the cleanup would be without its guard.
  function UnguardedRelease(s: State, r: nat): State
    requires r in s.runs
  {
    s.(runs := s.runs[r := s.runs[r].(released := true)], entries := s.entries - {s.runs[r].id})
  }

  /** The guard matters exactly when the workflow has been started again: without it that run's entry would go. */
  lemma GuardIsNeededExactly(limits: map<string, nat>, s: State, r: nat)
    requires Exclusive(s) && r in s.runs && s.runs[r].released
    ensures UnguardedRelease(s, r) != NextState(limits, s, Release(r)) <==> s.runs[r].id in s.entries
  {
    var s1 := UnguardedRelease(s, r);
    assert s1.runs == s.runs;
    assert s.runs[r].id !in s.entries ==> s1.entries == s.entries;
    assert s.runs[r].id !in s1.entries;
  }

  // ---------- Worker concurrency ----------

  // Only polls of q for partition p claim its rows with that key. On a queue that is not partitioned, all rows without a key
  // are of this kind, whatever else the polls claim.
  predicate PolledFor(ev: Event, q: string, p: Option<string>) {
    ev.Poll? ==> forall c | c in ev.claims && c.queue == q && c.partition == p :: ev.partition == p
  }

  predicate AllPolledFor(evs: seq<Event>, q: string, p: Option<string>) {
    forall i | 0 <= i < |evs| :: PolledFor(evs[i], q, p)
  }

  // The rows that a poll of q claims carry the partition key it polls for (none, if q is not partitioned).
  predicate Tagged(ev: Event, q: string) {
    ev.Poll? ==> forall c | c in ev.claims && c.queue == q :: c.partition == ev.partition
  }

  predicate AllTagged(evs: seq<Event>, q: string) {
    forall i | 0 <= i < |evs| :: Tagged(evs[i], q)
  }

  predicate WithinLimit(s: State, limit: nat, q: string, p: Option<string>) {
    |RunningIn(s.entries, Some(q), p)| + |ClaimedIn(s.claimed, q, p)| <= limit
  }

  lemma StartCounts(s: State, r: nat, id: string, queue: Option<string>, partition: Option<string>, q: string, p: Option<string>)
    ensures var n := |RunningIn(Started(s, r, id, queue, partition).entries, Some(q), p)|;
            n <= |RunningIn(s.entries, Some(q), p)| + if queue == Some(q) && partition == p then 1 else 0
  {
    var before, after := RunningIn(s.entries, Some(q), p), RunningIn(Started(s, r, id, queue, partition).entries, Some(q), p);
    if queue == Some(q) && partition == p {
      SubsetSize(after, before + {id});
    } else {
      SubsetSize(after, before);
    }
  }

  lemma DispatchWithin(limits: map<string, nat>, s: State, r: nat, c: Claim, q: string, p: Option<string>)
    requires Possible(limits, s, Dispatch(r, c)) && q in limits && WithinLimit(s, limits[q], q, p)
    ensures WithinLimit(NextState(limits, s, Dispatch(r, c)), limits[q], q, p)
  {
    StartCounts(s.(claimed := s.claimed - {c}), r, c.id, Some(c.queue), c.partition, q, p);
    if c.queue == q && c.partition == p {
      assert ClaimedIn(s.claimed - {c}, q, p) == ClaimedIn(s.claimed, q, p) - {c};
    } else {
      assert ClaimedIn(s.claimed - {c}, q, p) == ClaimedIn(s.claimed, q, p);
    }
  }

  lemma PollWithin(limits: map<string, nat>, s: State, ev: Event, q: string, p: Option<string>)
    requires ev.Poll? && Possible(limits, s, ev) && PolledFor(ev, q, p) && q in limits && WithinLimit(s, limits[q], q, p)
    ensures WithinLimit(NextState(limits, s, ev), limits[q], q, p)
  {
    var after := ClaimedIn(s.claimed + ev.claims, q, p);
    if ev.queue == q && ev.partition == p {
      assert forall c | c in after && c in s.claimed :: c in ClaimedIn(s.claimed, q, p);
      SubsetSize(after, ev.claims);
    } else {
      assert after == ClaimedIn(s.claimed, q, p);
    }
  }

  lemma EventWithin(limits: map<string, nat>, s: State, ev: Event, q: string, p: Option<string>)
    requires Possible(limits, s, ev) && PolledFor(ev, q, p) && q in limits && WithinLimit(s, limits[q], q, p)
    ensures WithinLimit(NextState(limits, s, ev), limits[q], q, p)
  {
    match ev
    case Invoke(r, id) => StartCounts(s, r, id, None, None, q, p);
    case Dispatch(r, c) => DispatchWithin(limits, s, r, c, q, p);
    case Release(r) => SubsetSize(RunningIn(NextState(limits, s, ev).entries, Some(q), p), RunningIn(s.entries, Some(q), p));
    case Poll(_, _, _, _) => PollWithin(limits, s, ev, q, p);
  }

  /**
  The workflows of a queue (of each partition, if it is partitioned) that run in this process, together with those it
  has claimed and not yet dispatched, never outnumber the worker's limit.
  */
  lemma {:induction false} WorkerLimitHolds(limits: map<string, nat>, s: State, evs: seq<Event>, q: string, p: Option<string>)
    requires History(limits, s, evs) && AllPolledFor(evs, q, p) && q in limits && WithinLimit(s, limits[q], q, p)
    ensures WithinLimit(RunAll(limits, s, evs), limits[q], q, p)
    decreases |evs|
  {
    if |evs| > 0 {
      EventWithin(limits, s, evs[0], q, p);
      WorkerLimitHolds(limits, NextState(limits, s, evs[0]), evs[1..], q, p);
    }
  }

  // ---------- The queue as a whole ----------

  // Everything of the queue that runs here, whatever its partition key.
  function QueueRunning(entries: map<string, Entry>, q: string): set<string> {
    set id | id in entries && entries[id].queue == Some(q)
  }

  function QueueClaimed(claimed: set<Claim>, q: string): set<Claim> {
    set c | c in claimed && c.queue == q
  }

  function Total(s: State, q: string): nat {
    |QueueRunning(s.entries, q)| + |QueueClaimed(s.claimed, q)|
  }

  // The queue is not partitioned: it is polled as a whole.
  predicate PolledWhole(ev: Event, q: string) {
    ev.Poll? && ev.queue == q ==> ev.partition.None?
  }

  predicate AllPolledWhole(evs: seq<Event>, q: string) {
    forall i | 0 <= i < |evs| :: PolledWhole(evs[i], q)
  }

  // Nothing of the queue carries a partition key.
  predicate Unkeyed(s: State, q: string) {
    && (forall id | id in s.entries && s.entries[id].queue == Some(q) :: s.entries[id].partition.None?)
    && (forall c | c in s.claimed && c.queue == q :: c.partition.None?)
  }

  lemma UnkeyedTotal(s: State, q: string)
    requires Unkeyed(s, q)
    ensures Total(s, q) == |RunningIn(s.entries, Some(q), None)| + |ClaimedIn(s.claimed, q, None)|
  {
    assert QueueRunning(s.entries, q) == RunningIn(s.entries, Some(q), None);
    assert QueueClaimed(s.claimed, q) == ClaimedIn(s.claimed, q, None);
  }

  lemma EventUnkeyed(limits: map<string, nat>, s: State, ev: Event, q: string)
    requires Possible(limits, s, ev) && Tagged(ev, q) && PolledWhole(ev, q) && Unkeyed(s, q)
    ensures Unkeyed(NextState(limits, s, ev), q)
  {
  }

  lemma {:induction false} UnkeyedAlways(limits: map<string, nat>, s: State, evs: seq<Event>, q: string)
    requires History(limits, s, evs) && AllTagged(evs, q) && AllPolledWhole(evs, q) && Unkeyed(s, q)
    ensures Unkeyed(RunAll(limits, s, evs), q)
    decreases |evs|
  {
    if |evs| > 0 {
      assert Tagged(evs[0], q) && PolledWhole(evs[0], q);
      EventUnkeyed(limits, s, evs[0], q);
      UnkeyedAlways(limits, NextState(limits, s, evs[0]), evs[1..], q);
    }
  }

  /** On a queue that is not partitioned, if its rows carry no partition key, the queue as a whole stays within the worker's limit. */
  lemma QueueTotalWithinLimit(limits: map<string, nat>, evs: seq<Event>, q: string)
    requires History(limits, Idle, evs) && AllTagged(evs, q) && AllPolledWhole(evs, q) && q in limits
    ensures Total(RunAll(limits, Idle, evs), q) <= limits[q]
  {
    assert RunningIn(Idle.entries, Some(q), None) == {} && ClaimedIn(Idle.claimed, q, None) == {};
    UnkeyedAlways(limits, Idle, evs, q);
    UnkeyedTotal(RunAll(limits, Idle, evs), q);
    assert AllPolledFor(evs, q, None) by {
      forall i | 0 <= i < |evs| ensures PolledFor(evs[i], q, None) {
        assert Tagged(evs[i], q);
      }
    }
    WorkerLimitHolds(limits, Idle, evs, q, None);
  }

  function Name(n: nat): string {
    seq(n, _ => 'x')
  }

  // n rows without a key.
  function Batch(q: string, n: nat): set<Claim> {
    set i: nat | i < n :: Claim(Name(i), q, None)
  }

  lemma {:induction false} BatchSize(q: string, n: nat)
    ensures |Batch(q, n)| == n
  {
    if n > 0 {
      BatchSize(q, n - 1);
      var last := Claim(Name(n - 1), q, None);
      forall i: nat | i < n - 1 ensures Claim(Name(i), q, None) != last {
        assert |Name(i)| != |Name(n - 1)|;
      }
      assert Batch(q, n) == Batch(q, n - 1) + {last};
      assert last !in Batch(q, n - 1);
    }
  }

  lemma ClaimedAfter(claimed: set<Claim>, claims: set<Claim>, q: string)
    requires QueueClaimed(claimed, q) == {} && forall c | c in claims :: c.queue == q
    ensures QueueClaimed(claimed + claims, q) == claims
  {
    forall c | c in claimed ensures c.queue != q {
      assert c.queue == q <==> c in QueueClaimed(claimed, q);
    }
  }

  // One more poll of the queue, of rows without a key.
  ghost predicate PollExceeds(limits: map<string, nat>, s: State, q: string, ev: Event) {
    q in limits && ev.Poll? && ev.queue == q && ev.partition.None? && Possible(limits, s, ev) && Tagged(ev, q)
    && Total(NextState(limits, s, ev), q) > limits[q]
  }

  lemma KeyedRowLetsExceed(limits: map<string, nat>, s: State, q: string, id: string) returns (ev: Event)
    requires q in limits && QueueClaimed(s.claimed, q) == {} && |RunningIn(s.entries, Some(q), None)| <= limits[q]
    requires id in s.entries && s.entries[id].queue == Some(q) && s.entries[id].partition.Some?
    ensures PollExceeds(limits, s, q, ev)
  {
    var counted := RunningIn(s.entries, Some(q), None);
    var claims := Batch(q, limits[q] - |counted|);
    BatchSize(q, limits[q] - |counted|);
    ev := Poll(q, None, Some(limits[q]), claims);
    assert ClaimedIn(s.claimed, q, None) <= QueueClaimed(s.claimed, q);
    SubsetSize(counted + {id}, QueueRunning(s.entries, q));
    ClaimedAfter(s.claimed, claims, q);
  }

  lemma UnkeyedPollFits(limits: map<string, nat>, s: State, q: string, ev: Event)
    requires q in limits && QueueClaimed(s.claimed, q) == {} && |RunningIn(s.entries, Some(q), None)| <= limits[q]
    requires QueueRunning(s.entries, q) == RunningIn(s.entries, Some(q), None)
    ensures !PollExceeds(limits, s, q, ev)
  {
    if ev.Poll? && ev.queue == q && Possible(limits, s, ev) {
      ClaimedAfter(s.claimed, ev.claims, q);
    }
  }

  /**
  With nothing left to dispatch, one more poll, of rows without a key, can take the queue over its limit exactly when
  a row with a key is running: that row is not counted.
  */
  lemma TotalCanExceedExactly(limits: map<string, nat>, s: State, q: string)
    requires q in limits && QueueClaimed(s.claimed, q) == {} && |RunningIn(s.entries, Some(q), None)| <= limits[q]
    ensures (exists ev :: PollExceeds(limits, s, q, ev)) <==> exists id :: id in s.entries && s.entries[id].queue == Some(q) && s.entries[id].partition.Some?
  {
    if id :| id in s.entries && s.entries[id].queue == Some(q) && s.entries[id].partition.Some? {
      var ev := KeyedRowLetsExceed(limits, s, q, id);
    } else {
      forall ev ensures !PollExceeds(limits, s, q, ev) {
        UnkeyedPollFits(limits, s, q, ev);
      }
    }
  }

  lemma Unfold(limits: map<string, nat>, s: State, ev: Event, rest: seq<Event>)
    requires Possible(limits, s, ev) && History(limits, NextState(limits, s, ev), rest)
    ensures History(limits, s, [ev] + rest) && RunAll(limits, s, [ev] + rest) == RunAll(limits, NextState(limits, s, ev), rest)
  {
    assert ([ev] + rest)[1..] == rest;
  }

  // Claim one row of the queue as a whole and start it. The row carries a partition key all the same.
  lemma StartKeyed(limits: map<string, nat>, s: State, r: nat, id: string, rest: seq<Event>)
    requires limits == map["q" := 1] && r !in s.runs && id !in s.entries && s.claimed == {}
    requires RunningIn(s.entries, Some("q"), None) == {}
    requires var s' := s.(entries := s.entries[id := Entry(r, Some("q"), Some("k"))], runs := s.runs[r := Run(id, false)]);
             History(limits, s', rest)
    ensures var c := Claim(id, "q", Some("k"));
            var evs := [Poll("q", None, Some(1), {c})] + ([Dispatch(r, c)] + rest);
            var s' := s.(entries := s.entries[id := Entry(r, Some("q"), Some("k"))], runs := s.runs[r := Run(id, false)]);
            History(limits, s, evs) && RunAll(limits, s, evs) == RunAll(limits, s', rest)
  {
    var c := Claim(id, "q", Some("k"));
    var s1 := NextState(limits, s, Poll("q", None, Some(1), {c}));
    assert s1.claimed == {c} && s1.claimed - {c} == {};
    Unfold(limits, s1, Dispatch(r, c), rest);
    Unfold(limits, s, Poll("q", None, Some(1), {c}), [Dispatch(r, c)] + rest);
  }

  /** On a queue that is not partitioned, rows that carry a partition key escape the count: a limit of one lets two run. */
  lemma KeyedRowsEscapeTheCount() returns (evs: seq<Event>)
    ensures History(map["q" := 1], Idle, evs)
    ensures Total(RunAll(map["q" := 1], Idle, evs), "q") == 2
  {
    var limits := map["q" := 1];
    var s1 := State(map["a" := Entry(0, Some("q"), Some("k"))], map[0 := Run("a", false)], {});
    var c, d := Claim("a", "q", Some("k")), Claim("b", "q", Some("k"));
    StartKeyed(limits, s1, 1, "b", []);
    evs := [Poll("q", None, Some(1), {d})] + ([Dispatch(1, d)] + []);
    StartKeyed(limits, Idle, 0, "a", evs);
    assert Idle.(entries := Idle.entries["a" := Entry(0, Some("q"), Some("k"))], runs := Idle.runs[0 := Run("a", false)]) == s1;
    evs := [Poll("q", None, Some(1), {c})] + ([Dispatch(0, c)] + evs);
    var e := RunAll(limits, Idle, evs);
    assert e.entries == s1.entries["b" := Entry(1, Some("q"), Some("k"))] && e.claimed == {};
    assert QueueRunning(e.entries, "q") == {"a", "b"} && QueueClaimed(e.claimed, "q") == {};
  }

  // ---------- The registry ----------

  class Registry {
    var entries: map<string, Entry>

    method CheckForRunningWorkflow(id: string) returns (running: bool)
      ensures running == (id in entries)
    {
      running := id in entries;
    }

    method RegisterRunningWorkflow(id: string, entry: Entry)
      modifies this
      ensures entries == old(entries)[id := entry]
    {
      entries := entries[id := entry];
    }

    /** Starts a run and registers it, unless the workflow is registered. */
    method StartUnlessRunning(id: string, entry: Entry) returns (started: bool)
      modifies this
      ensures started == (id !in old(entries))
      ensures entries == if started then old(entries)[id := entry] else old(entries)
    {
      var running := CheckForRunningWorkflow(id);
      started := !running;
      if started {
        RegisterRunningWorkflow(id, entry);
      }
    }

    method ClearRunningWorkflow(id: string)
      modifies this
      ensures entries == old(entries) - {id}
    {
      entries := entries - {id};
    }

    /** The count behind the worker limit. */
    method CountRunningWorkflowsForQueue(queue: string, partition: Option<string>) returns (count: nat)
      ensures count == |RunningIn(entries, Some(queue), partition)|
    {
      count := 0;
      var left := entries.Keys;
      assert RunningIn(entries, Some(queue), partition) - left == {};
      while left != {}
        invariant left <= entries.Keys
        invariant count == |RunningIn(entries, Some(queue), partition) - left|
      {
        var id :| id in left;
        var running := RunningIn(entries, Some(queue), partition);
        if entries[id].queue == Some(queue) && entries[id].partition == partition {
          assert running - (left - {id}) == running - left + {id};
          count := count + 1;
        } else {
          assert running - (left - {id}) == running - left;
        }
        left := left - {id};
      }
      assert RunningIn(entries, Some(queue), partition) - left == RunningIn(entries, Some(queue), partition);
    }
  }

  class WorkflowRun {
    const id: string
    var released: bool

    constructor (id: string)
      ensures this.id == id && !released
    {
      this.id := id;
      released := false;
    }

    /** The guarded release: the first call removes the entry, later ones do nothing. */
    method ReleaseRunningWorkflow(registry: Registry)
      modifies this, registry
      ensures released
      ensures registry.entries == if old(released) then old(registry.entries) else old(registry.entries) - {id}
    {
      if released {
        return;
      }
      released := true;
      registry.ClearRunningWorkflow(id);
    }
  }
}
