/**
The queue runner's scheduler: due queues are polled in the order of their next poll time, in a bounded number of
lanes, while queues are added and dropped. Times are in milliseconds, as reals.
*/
module Scheduler {
  import opened Common

  const MAX_POLLING := 120000.0

  datatype QueueState = QueueState(min: real, interval: real, next: real)

  // A poll in progress. Its state object may have been dropped in the meantime.
  datatype Poll = Poll(name: string, attached: bool)

  datatype Runner = Runner(
    states: map<string, QueueState>,
    polls: map<nat, Poll>,
    inFlight: map<string, nat>,
    clock: real,
    now: real)                 // the clock at the start of the current pass

  // ---------- Polling intervals ----------

  function Max(a: real, b: real): real {
    if a < b then b else a
  }

  function Min(a: real, b: real): real {
    if a < b then a else b
  }

  function AdjustedInterval(q: QueueState, contention: bool): real {
    var wanted := if contention then Min(MAX_POLLING, q.interval * 2.0) else Max(q.min, q.interval * 0.9);
    Max(q.min, Min(wanted, MAX_POLLING))
  }

  function Jittered(interval: real, random: real): real {
    interval * (0.95 + random * 0.1)
  }

  // `random` is drawn from [0, 1).
  function Adjusted(q: QueueState, contention: bool, random: real, clock: real): QueueState {
    var interval := AdjustedInterval(q, contention);
    q.(interval := interval, next := clock + Jittered(interval, random))
  }

  predicate WithinFivePercent(x: real, y: real) {
    x * 0.95 <= y < x * 1.05
  }

  lemma JitterBounds(random: real)
    requires 0.0 <= random < 1.0
    ensures 0.95 <= 0.95 + random * 0.1 < 1.05
  {
  }

  lemma ScaledBounds(x: real, jitter: real)
    requires x > 0.0 && 0.95 <= jitter < 1.05
    ensures 0.0 < x * 0.95 <= x * jitter < x * 1.05
  {
    assert x * (jitter - 0.95) >= 0.0;
    assert x * (1.05 - jitter) > 0.0;
  }

  /**
  The interval stays between the queue's minimum and 120 s (or at its minimum, if that is larger), grows under
  contention unless it is at the top, and the next poll is within 5% of it, in the future.
  */
  lemma AdjustedBounds(q: QueueState, contention: bool, random: real, clock: real)
    requires q.min > 0.0 && q.interval > 0.0 && 0.0 <= random < 1.0
    ensures var a := Adjusted(q, contention, random, clock);
            && q.min <= a.interval <= Max(q.min, MAX_POLLING)
            && clock < a.next && WithinFivePercent(a.interval, a.next - clock)
            && (contention && q.interval < MAX_POLLING ==> a.interval > q.interval)
            && (!contention && q.interval <= Max(q.min, MAX_POLLING) ==> a.interval <= Max(q.min, q.interval))
  {
    IntervalBounds(q, contention);
    NextBounds(AdjustedInterval(q, contention), random);
  }

  lemma IntervalBounds(q: QueueState, contention: bool)
    requires q.min > 0.0 && q.interval > 0.0
    ensures var a := AdjustedInterval(q, contention);
            && q.min <= a <= Max(q.min, MAX_POLLING)
            && (contention && q.interval < MAX_POLLING ==> a > q.interval)
            && (!contention && q.interval <= Max(q.min, MAX_POLLING) ==> a <= Max(q.min, q.interval))
  {
  }

  lemma NextBounds(interval: real, random: real)
    requires interval > 0.0 && 0.0 <= random < 1.0
    ensures WithinFivePercent(interval, Jittered(interval, random)) && Jittered(interval, random) > 0.0
  {
    JitterBounds(random);
    ScaledBounds(interval, 0.95 + random * 0.1);
  }

  // ---------- Events ----------

  datatype Event =
    | Advance(t: real)
    | Wake                                            // a pass starts: it reads the clock
    | StartPoll(id: nat, name: string)
    | Complete(id: nat, contention: bool, random: real)
    | AddQueue(name: string, min: real)
    | Reconfigure(name: string, min: real)
    | DropQueue(name: string)

  predicate Due(s: Runner, name: string) {
    name in s.states && s.states[name].next <= s.now && name !in s.inFlight
  }

  // No due queue has an earlier poll time.
  predicate IsEarliest(s: Runner, name: string) {
    Due(s, name) && forall m | m in s.states && Due(s, m) :: s.states[name].next <= s.states[m].next
  }

  predicate NoneDue(s: Runner) {
    forall n | n in s.states :: !Due(s, n)
  }

  predicate Possible(lanes: nat, s: Runner, ev: Event) {
    match ev
    case Advance(t) => s.clock <= t
    case Wake => true
    case StartPoll(id, name) => id !in s.polls && |s.inFlight| < lanes && IsEarliest(s, name)
    case Complete(id, _, random) => id in s.polls && 0.0 <= random < 1.0
    case AddQueue(name, min) => name !in s.states && min > 0.0
    case Reconfigure(name, min) => name in s.states && min > 0.0
    case DropQueue(name) => name in s.states
  }

  function NextRunner(lanes: nat, s: Runner, ev: Event): Runner
    requires Possible(lanes, s, ev)
  {
    match ev
    case Advance(t) => s.(clock := t)
    case Wake => s.(now := s.clock)
    case StartPoll(id, name) => s.(polls := s.polls[id := Poll(name, true)], inFlight := s.inFlight[name := id])
    case Complete(id, contention, random) =>
      var p := s.polls[id];
      var s1 := s.(polls := s.polls - {id}, inFlight := s.inFlight - {p.name});
      if p.attached && p.name in s.states
      then s1.(states := s.states[p.name := Adjusted(s.states[p.name], contention, random, s.clock)]) else s1
    case AddQueue(name, min) => s.(states := s.states[name := QueueState(min, min, s.now + min)])
    case Reconfigure(name, min) => s.(states := s.states[name := s.states[name].(min := min)])
    case DropQueue(name) =>
      s.(states := s.states - {name},
         polls := map id | id in s.polls :: if s.polls[id].name == name then s.polls[id].(attached := false) else s.polls[id])
  }

  predicate History(lanes: nat, s: Runner, evs: seq<Event>)
    decreases |evs|
  {
    |evs| == 0 || (Possible(lanes, s, evs[0]) && History(lanes, NextRunner(lanes, s, evs[0]), evs[1..]))
  }

  function Run(lanes: nat, s: Runner, evs: seq<Event>): Runner
    requires History(lanes, s, evs)
    decreases |evs|
  {
    if |evs| == 0 then s else Run(lanes, NextRunner(lanes, s, evs[0]), evs[1..])
  }

  // ---------- Lanes ----------

  // Polls in progress and reserved lanes correspond one to one.
  predicate Ok(lanes: nat, s: Runner) {
    && |s.inFlight| <= lanes && s.now <= s.clock
    && (forall id | id in s.polls :: s.polls[id].name in s.inFlight && s.inFlight[s.polls[id].name] == id)
    && (forall n | n in s.inFlight :: s.inFlight[n] in s.polls && s.polls[s.inFlight[n]].name == n)
    && (forall n | n in s.states :: s.states[n].min > 0.0 && s.states[n].interval > 0.0)
  }

  lemma CompleteKeeps(lanes: nat, s: Runner, id: nat, contention: bool, random: real)
    requires Ok(lanes, s) && Possible(lanes, s, Complete(id, contention, random))
    ensures Ok(lanes, NextRunner(lanes, s, Complete(id, contention, random)))
  {
    var s', p := NextRunner(lanes, s, Complete(id, contention, random)), s.polls[id];
    assert s'.inFlight.Keys == s.inFlight.Keys - {p.name};
    assert |s'.inFlight.Keys| <= |s.inFlight.Keys|;
    if p.name in s.states {
      AdjustedBounds(s.states[p.name], contention, random, s.clock);
    }
  }

  lemma OneMoreLane(inFlight: map<string, nat>, name: string, id: nat)
    requires name !in inFlight
    ensures |inFlight[name := id]| == |inFlight| + 1
  {
    assert inFlight[name := id].Keys == inFlight.Keys + {name};
    assert |inFlight[name := id]| == |inFlight[name := id].Keys|;
  }

  lemma EventKeeps(lanes: nat, s: Runner, ev: Event)
    requires Ok(lanes, s) && Possible(lanes, s, ev)
    ensures Ok(lanes, NextRunner(lanes, s, ev))
  {
    match ev
    case StartPoll(id, name) => OneMoreLane(s.inFlight, name, id);
    case Complete(id, contention, random) => CompleteKeeps(lanes, s, id, contention, random);
    case _ =>
  }

  lemma {:induction false} RunKeeps(lanes: nat, s: Runner, evs: seq<Event>)
    requires Ok(lanes, s) && History(lanes, s, evs)
    ensures Ok(lanes, Run(lanes, s, evs))
    decreases |evs|
  {
    if |evs| > 0 {
      EventKeeps(lanes, s, evs[0]);
      RunKeeps(lanes, NextRunner(lanes, s, evs[0]), evs[1..]);
    }
  }

  /** Never more polls than lanes, and never two of one queue; even of a queue dropped and added again under a poll. */
  lemma LanesAreExclusive(lanes: nat, s: Runner, evs: seq<Event>)
    requires Ok(lanes, s) && History(lanes, s, evs)
    ensures var e := Run(lanes, s, evs);
            && |e.polls| <= lanes
            && forall a, b | a in e.polls && b in e.polls && e.polls[a].name == e.polls[b].name :: a == b
  {
    RunKeeps(lanes, s, evs);
    var e := Run(lanes, s, evs);
    PollsPerLane(e.polls.Keys, e);
  }

  lemma {:induction false} PollsPerLane(ids: set<nat>, s: Runner)
    requires ids <= s.polls.Keys
    requires forall id | id in s.polls :: s.polls[id].name in s.inFlight && s.inFlight[s.polls[id].name] == id
    ensures |ids| <= |s.inFlight|
  {
    var names := set id | id in ids :: s.polls[id].name;
    SameSize(ids, names, s);
    assert names <= s.inFlight.Keys;
    SubsetSize(names, s.inFlight.Keys);
  }

  lemma {:induction false} SameSize(ids: set<nat>, names: set<string>, s: Runner)
    requires ids <= s.polls.Keys && names == set id | id in ids :: s.polls[id].name
    requires forall id | id in s.polls :: s.polls[id].name in s.inFlight && s.inFlight[s.polls[id].name] == id
    ensures |ids| == |names|
  {
    if ids != {} {
      var id :| id in ids;
      SameSize(ids - {id}, names - {s.polls[id].name}, s);
    }
  }

  // ---------- Fairness ----------

  // b cannot get a lane before a: it is gone, or behind a, or being polled, after which it will be behind.
  predicate Behind(s: Runner, a: string, b: string)
    requires a in s.states
  {
    || b !in s.states
    || s.states[b].next > s.states[a].next
    || (b in s.inFlight && s.inFlight[b] in s.polls && s.polls[s.inFlight[b]].attached)
  }

  // a is neither polled nor dropped.
  predicate PassedOver(a: string, evs: seq<Event>) {
    forall i | 0 <= i < |evs| :: !(evs[i].StartPoll? && evs[i].name == a) && !(evs[i].DropQueue? && evs[i].name == a)
  }

  function Picks(b: string, evs: seq<Event>): nat {
    if |evs| == 0 then 0 else Picks(b, evs[1..]) + if evs[0].StartPoll? && evs[0].name == b then 1 else 0
  }

  predicate NotFor(a: string, ev: Event) {
    !(ev.StartPoll? && ev.name == a) && !(ev.DropQueue? && ev.name == a)
  }

  lemma StaysDue(lanes: nat, s: Runner, ev: Event, a: string)
    requires Ok(lanes, s) && Possible(lanes, s, ev) && Due(s, a) && NotFor(a, ev)
    ensures Due(NextRunner(lanes, s, ev), a) && NextRunner(lanes, s, ev).states[a].next == s.states[a].next
  {
  }

  lemma StaysBehind(lanes: nat, s: Runner, ev: Event, a: string, b: string)
    requires Ok(lanes, s) && Possible(lanes, s, ev) && Due(s, a) && NotFor(a, ev) && a != b && Behind(s, a, b)
    ensures Behind(NextRunner(lanes, s, ev), a, b) && !(ev.StartPoll? && ev.name == b)
  {
    StaysDue(lanes, s, ev, a);
    match ev
    case Complete(id, contention, random) =>
      if s.polls[id].name == b && b in s.states {
        AdjustedBounds(s.states[b], contention, random, s.clock);
      }
    case _ =>
  }

  lemma {:induction false} BehindIsNotPicked(lanes: nat, s: Runner, evs: seq<Event>, a: string, b: string)
    requires Ok(lanes, s) && History(lanes, s, evs) && Due(s, a) && PassedOver(a, evs) && a != b && Behind(s, a, b)
    ensures Picks(b, evs) == 0
    decreases |evs|
  {
    if |evs| > 0 {
      assert NotFor(a, evs[0]);
      EventKeeps(lanes, s, evs[0]);
      StaysDue(lanes, s, evs[0], a);
      StaysBehind(lanes, s, evs[0], a, b);
      BehindIsNotPicked(lanes, NextRunner(lanes, s, evs[0]), evs[1..], a, b);
    }
  }

  /**
  A due queue that is passed over is overtaken at most once by each other queue, however long the lanes stay full and
  whatever queues are added, reconfigured or dropped.
  */
  lemma {:induction false} OvertakenAtMostOnce(lanes: nat, s: Runner, evs: seq<Event>, a: string, b: string)
    requires Ok(lanes, s) && History(lanes, s, evs) && Due(s, a) && PassedOver(a, evs) && a != b
    ensures Picks(b, evs) <= 1
    decreases |evs|
  {
    if |evs| > 0 {
      var s' := NextRunner(lanes, s, evs[0]);
      assert NotFor(a, evs[0]);
      EventKeeps(lanes, s, evs[0]);
      StaysDue(lanes, s, evs[0], a);
      if evs[0].StartPoll? && evs[0].name == b {
        assert Behind(s', a, b);
        BehindIsNotPicked(lanes, s', evs[1..], a, b);
      } else {
        OvertakenAtMostOnce(lanes, s', evs[1..], a, b);
      }
    }
  }

  // ---------- The runner ----------

  class QueueRunner {
    var runner: Runner
    var nextId: nat

    // The due queue with the earliest poll time, if any.
    method EarliestDue() returns (pick: Option<string>)
      ensures if pick.None? then NoneDue(runner) else IsEarliest(runner, pick.value)
    {
      pick := None;
      var left := runner.states.Keys;
      while left != {}
        invariant left <= runner.states.Keys
        invariant pick.Some? ==> Due(runner, pick.value)
        invariant forall m | m in runner.states && m !in left && Due(runner, m) ::
                    pick.Some? && runner.states[pick.value].next <= runner.states[m].next
      {
        var n :| n in left;
        if Due(runner, n) && (pick.None? || runner.states[n].next < runner.states[pick.value].next) {
          pick := Some(n);
        }
        left := left - {n};
      }
    }

    method ReserveLane(lanes: nat, name: string)
      requires Ok(lanes, runner) && |runner.inFlight| < lanes && IsEarliest(runner, name)
      requires forall id | id in runner.polls :: id < nextId
      modifies this
      ensures runner == NextRunner(lanes, old(runner), StartPoll(old(nextId), name)) && Ok(lanes, runner)
      ensures |runner.inFlight| == |old(runner).inFlight| + 1
      ensures forall id | id in runner.polls :: id < nextId
    {
      EventKeeps(lanes, runner, StartPoll(nextId, name));
      OneMoreLane(runner.inFlight, name, nextId);
      runner := runner.(polls := runner.polls[nextId := Poll(name, true)], inFlight := runner.inFlight[name := nextId]);
      nextId := nextId + 1;
    }

    /** One pass: due queues get lanes, earliest first, until the lanes are full or no due queue is left. */
    method ScheduleDueQueues(lanes: nat) returns (ghost evs: seq<Event>)
      requires Ok(lanes, runner) && forall id | id in runner.polls :: id < nextId
      modifies this
      ensures History(lanes, old(runner), evs) && runner == Run(lanes, old(runner), evs) && Ok(lanes, runner)
      ensures forall i | 0 <= i < |evs| :: evs[i].StartPoll?
      ensures |runner.inFlight| == lanes || NoneDue(runner)
      ensures forall id | id in runner.polls :: id < nextId
    {
      evs := [];
      var pick := EarliestDue();
      while pick.Some? && |runner.inFlight| < lanes
        invariant Ok(lanes, runner) && forall id | id in runner.polls :: id < nextId
        invariant History(lanes, old(runner), evs) && runner == Run(lanes, old(runner), evs)
        invariant forall i | 0 <= i < |evs| :: evs[i].StartPoll?
        invariant if pick.None? then NoneDue(runner) else IsEarliest(runner, pick.value)
        decreases lanes - |runner.inFlight|
      {
        Append(lanes, old(runner), evs, StartPoll(nextId, pick.value));
        evs := evs + [StartPoll(nextId, pick.value)];
        ReserveLane(lanes, pick.value);
        pick := EarliestDue();
      }
    }
  }

  lemma {:induction false} Append(lanes: nat, s: Runner, evs: seq<Event>, ev: Event)
    requires History(lanes, s, evs) && Possible(lanes, Run(lanes, s, evs), ev)
    ensures History(lanes, s, evs + [ev]) && Run(lanes, s, evs + [ev]) == NextRunner(lanes, Run(lanes, s, evs), ev)
    decreases |evs|
  {
    if |evs| == 0 {
      assert evs + [ev] == [ev] && [ev][1..] == [];
    } else {
      Append(lanes, NextRunner(lanes, s, evs[0]), evs[1..], ev);
      assert (evs + [ev])[1..] == evs[1..] + [ev];
    }
  }
}
