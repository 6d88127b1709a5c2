/**
The scheduler's polls and the worker's registry together.

A poll of a queue claims workflows, for a partitioned queue one partition after the other, and dispatches all it has
claimed before it claims again or completes. That is the order of statements in one poll; that no other poll of the queue
is in progress meanwhile is what the lanes give.
*/
module WorkerPolls {
  import opened Common
  import S = Scheduler
  import R = Running

  // A claim that a poll has yet to dispatch.
  datatype Pending = Pending(poll: nat, claim: R.Claim)

  datatype Worker = Worker(runner: S.Runner, local: R.State, pending: set<Pending>)

  datatype Event =
    | Schedule(ev: S.Event)
    | ClaimBatch(poll: nat, partition: Option<string>, claims: set<R.Claim>)
    | Dispatch(run: nat, pending: Pending)
    | Invoke(run: nat, id: string)
    | Release(run: nat)

  // The poll has nothing left to dispatch.
  predicate Idle(w: Worker, poll: nat) {
    forall h | h in w.pending :: h.poll != poll
  }

  function LimitOf(limits: map<string, nat>, q: string): Option<nat> {
    if q in limits then Some(limits[q]) else None
  }

  predicate Possible(lanes: nat, limits: map<string, nat>, w: Worker, ev: Event) {
    match ev
    case Schedule(sev) => S.Possible(lanes, w.runner, sev) && (sev.Complete? ==> Idle(w, sev.id))
    case ClaimBatch(poll, p, claims) =>
      && poll in w.runner.polls && Idle(w, poll)
      && (forall c | c in claims :: c.queue == w.runner.polls[poll].name)
      && (var limit := LimitOf(limits, w.runner.polls[poll].name);
          limit.Some? ==> |claims| <= R.Room(limit.value, |R.RunningIn(w.local.entries, Some(w.runner.polls[poll].name), p)|))
    case Dispatch(run, h) => run !in w.local.runs && h in w.pending
    case Invoke(run, _) => run !in w.local.runs
    case Release(run) => run in w.local.runs
  }

  // The registry's part of an event.
  function LocalEvent(limits: map<string, nat>, w: Worker, ev: Event): Option<R.Event>
    requires ev.ClaimBatch? ==> ev.poll in w.runner.polls
  {
    match ev
    case Schedule(_) => None
    case ClaimBatch(poll, p, claims) => Some(R.Poll(w.runner.polls[poll].name, p, LimitOf(limits, w.runner.polls[poll].name), claims))
    case Dispatch(run, h) => Some(R.Dispatch(run, h.claim))
    case Invoke(run, id) => Some(R.Invoke(run, id))
    case Release(run) => Some(R.Release(run))
  }

  function Held(poll: nat, claims: set<R.Claim>): set<Pending> {
    set c | c in claims :: Pending(poll, c)
  }

  function NextWorker(lanes: nat, limits: map<string, nat>, w: Worker, ev: Event): Worker
    requires Ok(lanes, w) && Possible(lanes, limits, w, ev)
  {
    LocallyPossible(lanes, limits, w, ev);
    match ev
    case Schedule(sev) => w.(runner := S.NextRunner(lanes, w.runner, sev))
    case _ =>
      var local := R.NextState(limits, w.local, LocalEvent(limits, w, ev).value);
      match ev
      case ClaimBatch(poll, _, claims) => w.(local := local, pending := w.pending + Held(poll, claims))
      case Dispatch(_, h) => w.(local := local, pending := w.pending - {h})
      case _ => w.(local := local)
  }

  ghost predicate History(lanes: nat, limits: map<string, nat>, w: Worker, evs: seq<Event>)
    requires Ok(lanes, w)
    decreases |evs|
  {
    |evs| == 0 ||
    (Possible(lanes, limits, w, evs[0]) &&
     (EventKeeps(lanes, limits, w, evs[0]); History(lanes, limits, NextWorker(lanes, limits, w, evs[0]), evs[1..])))
  }

  ghost function RunAll(lanes: nat, limits: map<string, nat>, w: Worker, evs: seq<Event>): Worker
    requires Ok(lanes, w) && History(lanes, limits, w, evs)
    decreases |evs|
  {
    if |evs| == 0 then w
    else
      EventKeeps(lanes, limits, w, evs[0]);
      RunAll(lanes, limits, NextWorker(lanes, limits, w, evs[0]), evs[1..])
  }

  // ---------- What is kept ----------

  // Every undispatched claim belongs to a poll of its queue that is in progress.
  predicate Ok(lanes: nat, w: Worker) {
    && S.Ok(lanes, w.runner)
    && (forall h | h in w.pending :: h.claim in w.local.claimed && h.poll in w.runner.polls && w.runner.polls[h.poll].name == h.claim.queue)
    && (forall c | c in w.local.claimed :: exists h :: h in w.pending && h.claim == c)
  }

  lemma OnePollPerQueue(lanes: nat, runner: S.Runner, a: nat, b: nat)
    requires S.Ok(lanes, runner)
    ensures a in runner.polls && b in runner.polls && runner.polls[a].name == runner.polls[b].name ==> a == b
  {
  }

  /** The lanes give the registry's condition: when a poll claims, no claim of its queue is waiting to be dispatched. */
  lemma ClaimsAreDispatchedFirst(lanes: nat, w: Worker, poll: nat, p: Option<string>)
    requires Ok(lanes, w) && poll in w.runner.polls && Idle(w, poll)
    ensures R.ClaimedIn(w.local.claimed, w.runner.polls[poll].name, p) == {}
  {
    var q := w.runner.polls[poll].name;
    forall c | c in w.local.claimed ensures c.queue != q {
      var h :| h in w.pending && h.claim == c;
      OnePollPerQueue(lanes, w.runner, h.poll, poll);
    }
  }

  lemma LocallyPossible(lanes: nat, limits: map<string, nat>, w: Worker, ev: Event)
    requires Ok(lanes, w) && Possible(lanes, limits, w, ev)
    ensures var local := LocalEvent(limits, w, ev); local.Some? ==> R.Possible(limits, w.local, local.value)
  {
    if ev.ClaimBatch? {
      ClaimsAreDispatchedFirst(lanes, w, ev.poll, ev.partition);
    }
  }

  lemma ScheduleKeeps(lanes: nat, limits: map<string, nat>, w: Worker, sev: S.Event)
    requires Ok(lanes, w) && Possible(lanes, limits, w, Schedule(sev))
    ensures Ok(lanes, w.(runner := S.NextRunner(lanes, w.runner, sev)))
  {
    S.EventKeeps(lanes, w.runner, sev);
    var runner := S.NextRunner(lanes, w.runner, sev);
    forall h | h in w.pending ensures h.poll in runner.polls && runner.polls[h.poll].name == h.claim.queue {
      assert sev.StartPoll? ==> sev.id != h.poll;
    }
  }

  lemma EventKeeps(lanes: nat, limits: map<string, nat>, w: Worker, ev: Event)
    requires Ok(lanes, w) && Possible(lanes, limits, w, ev)
    ensures Ok(lanes, NextWorker(lanes, limits, w, ev))
  {
    var w' := NextWorker(lanes, limits, w, ev);
    match ev
    case Schedule(sev) => ScheduleKeeps(lanes, limits, w, sev);
    case ClaimBatch(poll, _, claims) =>
      forall c | c in w'.local.claimed ensures exists h :: h in w'.pending && h.claim == c {
        if c in claims {
          assert Pending(poll, c) in w'.pending;
        }
      }
    case Dispatch(_, h) =>
      forall g | g in w'.pending ensures g.claim in w'.local.claimed {
        OnePollPerQueue(lanes, w.runner, g.poll, h.poll);
      }
    case _ =>
  }

  // ---------- The worker's limit ----------

  predicate PolledFor(ev: Event, q: string, p: Option<string>) {
    ev.ClaimBatch? ==> forall c | c in ev.claims && c.queue == q && c.partition == p :: ev.partition == p
  }

  predicate AllPolledFor(evs: seq<Event>, q: string, p: Option<string>) {
    forall i | 0 <= i < |evs| :: PolledFor(evs[i], q, p)
  }

  predicate Tagged(ev: Event, q: string) {
    ev.ClaimBatch? ==> forall c | c in ev.claims && c.queue == q :: c.partition == ev.partition
  }

  predicate AllTagged(evs: seq<Event>, q: string) {
    forall i | 0 <= i < |evs| :: Tagged(evs[i], q)
  }

  lemma EventWithin(lanes: nat, limits: map<string, nat>, w: Worker, ev: Event, q: string, p: Option<string>)
    requires Ok(lanes, w) && Possible(lanes, limits, w, ev) && PolledFor(ev, q, p) && q in limits && R.WithinLimit(w.local, limits[q], q, p)
    ensures R.WithinLimit(NextWorker(lanes, limits, w, ev).local, limits[q], q, p)
  {
    LocallyPossible(lanes, limits, w, ev);
    if !ev.Schedule? {
      R.EventWithin(limits, w.local, LocalEvent(limits, w, ev).value, q, p);
    }
  }

  /**
  With the polls scheduled in lanes, the workflows of a queue or partition that run in this process together with those it
  has claimed and not yet dispatched never outnumber the worker's limit, while polls start and complete and queues come
  and go.
  */
  lemma {:induction false} WorkerLimitHoldsInLanes(lanes: nat, limits: map<string, nat>, w: Worker, evs: seq<Event>, q: string, p: Option<string>)
    requires Ok(lanes, w) && History(lanes, limits, w, evs) && AllPolledFor(evs, q, p) && q in limits && R.WithinLimit(w.local, limits[q], q, p)
    ensures R.WithinLimit(RunAll(lanes, limits, w, evs).local, limits[q], q, p)
    decreases |evs|
  {
    if |evs| > 0 {
      assert PolledFor(evs[0], q, p);
      EventKeeps(lanes, limits, w, evs[0]);
      EventWithin(lanes, limits, w, evs[0], q, p);
      WorkerLimitHoldsInLanes(lanes, limits, NextWorker(lanes, limits, w, evs[0]), evs[1..], q, p);
    }
  }

  predicate PolledWhole(lanes: nat, w: Worker, ev: Event, q: string) {
    ev.ClaimBatch? && ev.poll in w.runner.polls && w.runner.polls[ev.poll].name == q ==> ev.partition.None?
  }

  // The queue is not partitioned, and its rows carry no key.
  ghost predicate AllPolledWhole(lanes: nat, limits: map<string, nat>, w: Worker, evs: seq<Event>, q: string)
    requires Ok(lanes, w) && History(lanes, limits, w, evs)
    decreases |evs|
  {
    |evs| == 0 ||
    (PolledWhole(lanes, w, evs[0], q) &&
     (EventKeeps(lanes, limits, w, evs[0]); AllPolledWhole(lanes, limits, NextWorker(lanes, limits, w, evs[0]), evs[1..], q)))
  }

  lemma EventUnkeyed(lanes: nat, limits: map<string, nat>, w: Worker, ev: Event, q: string)
    requires Ok(lanes, w) && Possible(lanes, limits, w, ev) && Tagged(ev, q) && PolledWhole(lanes, w, ev, q) && R.Unkeyed(w.local, q)
    ensures R.Unkeyed(NextWorker(lanes, limits, w, ev).local, q)
  {
    LocallyPossible(lanes, limits, w, ev);
    if !ev.Schedule? {
      R.EventUnkeyed(limits, w.local, LocalEvent(limits, w, ev).value, q);
    }
  }

  lemma {:induction false} UnkeyedInLanes(lanes: nat, limits: map<string, nat>, w: Worker, evs: seq<Event>, q: string)
    requires Ok(lanes, w) && History(lanes, limits, w, evs) && AllTagged(evs, q) && AllPolledWhole(lanes, limits, w, evs, q)
    requires R.Unkeyed(w.local, q)
    ensures R.Unkeyed(RunAll(lanes, limits, w, evs).local, q)
    decreases |evs|
  {
    if |evs| > 0 {
      assert Tagged(evs[0], q);
      EventKeeps(lanes, limits, w, evs[0]);
      EventUnkeyed(lanes, limits, w, evs[0], q);
      UnkeyedInLanes(lanes, limits, NextWorker(lanes, limits, w, evs[0]), evs[1..], q);
    }
  }

  /** ... and for a queue that is not partitioned and whose rows carry no key, the same holds of the queue as a whole. */
  lemma QueueTotalInLanes(lanes: nat, limits: map<string, nat>, w: Worker, evs: seq<Event>, q: string)
    requires Ok(lanes, w) && History(lanes, limits, w, evs) && AllTagged(evs, q) && AllPolledWhole(lanes, limits, w, evs, q)
    requires q in limits && R.Unkeyed(w.local, q) && R.Total(w.local, q) <= limits[q]
    ensures R.Total(RunAll(lanes, limits, w, evs).local, q) <= limits[q]
  {
    R.UnkeyedTotal(w.local, q);
    UnkeyedInLanes(lanes, limits, w, evs, q);
    R.UnkeyedTotal(RunAll(lanes, limits, w, evs).local, q);
    assert AllPolledFor(evs, q, None) by {
      forall i | 0 <= i < |evs| ensures PolledFor(evs[i], q, None) {
        assert Tagged(evs[i], q);
      }
    }
    WorkerLimitHoldsInLanes(lanes, limits, w, evs, q, None);
  }
}
