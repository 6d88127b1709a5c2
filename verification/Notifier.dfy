/**
Wakeups for `getEvent`: a reader registers a callback, then reads the table, then waits. A writer commits the event,
then adds its payload to the process's pending set, which a notifier flushes with `pg_notify`; every process that
listens receives the payload and calls the callbacks registered for it.
*/
module Notifier {
  import opened Common

  datatype Phase = Registered | Blocked

  // A getEvent call in one process; `woken` once its callback has been called.
  datatype Waiter = Waiter(process: nat, payload: string, phase: Phase, woken: bool)

  // A payload in the hands of a process.
  datatype Held = Held(process: nat, payload: string)

  datatype State = State(
    events: set<string>,         // committed
    unsignalled: set<Held>,      // committed by a writer that has not signalled yet
    pending: set<Held>,
    flushing: set<Held>,         // grabbed by a flush that has not notified yet
    inbox: set<Held>,            // notified, on the way to a listening process
    waiters: map<nat, Waiter>,
    live: set<nat>,
    dropped: set<string>,        // lost by a failed flush or with a process
    silent: set<string>)         // committed by a call that was not told so

  datatype Event =
    | Join(process: nat)
    | Register(w: nat, process: nat, payload: string)
    | Read(w: nat)                            // blocks, or returns the value
    | Leave(w: nat)                           // timeout, poll interval, or wakeup: the call deregisters
    | Commit(process: nat, payload: string, acknowledged: bool)
    | Signal(h: Held)
    | Grab(process: nat)
    | Notify(hs: set<Held>)                   // one batch
    | FlushFails(hs: set<Held>)
    | Deliver(h: Held)
    | Crash(process: nat)

  predicate Possible(s: State, ev: Event) {
    match ev
    case Join(_) => true
    case Register(w, p, _) => w !in s.waiters && p in s.live
    case Read(w) => w in s.waiters && s.waiters[w].phase == Registered
    case Leave(w) => w in s.waiters
    case Commit(p, _, _) => p in s.live
    case Signal(h) => h in s.unsignalled
    case Grab(_) => true
    case Notify(hs) => hs <= s.flushing
    case FlushFails(hs) => hs <= s.flushing
    case Deliver(h) => h in s.inbox
    case Crash(_) => true
  }

  function Of(hs: set<Held>, process: nat): set<Held> {
    set h | h in hs && h.process == process
  }

  function Payloads(hs: set<Held>): set<string> {
    set h | h in hs :: h.payload
  }

  // pg_notify reaches every process that listens.
  function Sent(live: set<nat>, hs: set<Held>): set<Held> {
    set p, h | p in live && h in hs :: Held(p, h.payload)
  }

  function Called(waiters: map<nat, Waiter>, h: Held): map<nat, Waiter> {
    map w | w in waiters :: if waiters[w].process == h.process && waiters[w].payload == h.payload then waiters[w].(woken := true) else waiters[w]
  }

  function NextState(s: State, ev: Event): State
    requires Possible(s, ev)
  {
    match ev
    case Join(p) => s.(live := s.live + {p})
    case Register(w, p, payload) => s.(waiters := s.waiters[w := Waiter(p, payload, Registered, false)])
    case Read(w) =>
      if s.waiters[w].payload in s.events then s.(waiters := s.waiters - {w})
      else s.(waiters := s.waiters[w := s.waiters[w].(phase := Blocked)])
    case Leave(w) => s.(waiters := s.waiters - {w})
    case Commit(p, payload, acknowledged) =>
      var s1 := s.(events := s.events + {payload});
      if acknowledged then s1.(unsignalled := s.unsignalled + {Held(p, payload)}) else s1.(silent := s.silent + {payload})
    case Signal(h) => s.(unsignalled := s.unsignalled - {h}, pending := s.pending + {h})
    case Grab(p) => s.(pending := s.pending - Of(s.pending, p), flushing := s.flushing + Of(s.pending, p))
    case Notify(hs) => s.(flushing := s.flushing - hs, inbox := s.inbox + Sent(s.live, hs))
    case FlushFails(hs) => s.(flushing := s.flushing - hs, dropped := s.dropped + Payloads(hs))
    case Deliver(h) => s.(inbox := s.inbox - {h}, waiters := Called(s.waiters, h))
    case Crash(p) =>
      s.(live := s.live - {p},
         dropped := s.dropped + Payloads(Of(s.unsignalled, p) + Of(s.pending, p) + Of(s.flushing, p)),
         unsignalled := s.unsignalled - Of(s.unsignalled, p), pending := s.pending - Of(s.pending, p),
         flushing := s.flushing - Of(s.flushing, p), inbox := s.inbox - Of(s.inbox, p),
         waiters := map w | w in s.waiters && s.waiters[w].process != p :: s.waiters[w])
  }

  predicate History(s: State, evs: seq<Event>)
    decreases |evs|
  {
    |evs| == 0 || (Possible(s, evs[0]) && History(NextState(s, evs[0]), evs[1..]))
  }

  function Run(s: State, evs: seq<Event>): State
    requires History(s, evs)
    decreases |evs|
  {
    if |evs| == 0 then s else Run(NextState(s, evs[0]), evs[1..])
  }

  const Start := State({}, {}, {}, {}, {}, map[], {}, {}, {})

  // ---------- What is kept ----------

  // On its way to the waiters of some process: signalled or not, flushed or not.
  predicate OnItsWay(s: State, payload: string) {
    || (exists h :: h in s.unsignalled && h.payload == payload)
    || (exists h :: h in s.pending && h.payload == payload)
    || (exists h :: h in s.flushing && h.payload == payload)
  }

  predicate Accounted(s: State, w: nat)
    requires w in s.waiters
  {
    var payload := s.waiters[w].payload;
    || s.waiters[w].woken
    || OnItsWay(s, payload)
    || Held(s.waiters[w].process, payload) in s.inbox
    || payload in s.dropped
    || payload in s.silent
  }

  predicate Ok(s: State) {
    forall w | w in s.waiters ::
      s.waiters[w].process in s.live && (s.waiters[w].phase == Blocked && s.waiters[w].payload in s.events ==> Accounted(s, w))
  }

  // A payload that is on its way stays so, or reaches every live process, or is lost on record.
  lemma WayKept(s: State, ev: Event, payload: string)
    requires Possible(s, ev) && OnItsWay(s, payload)
    ensures var s' := NextState(s, ev);
            OnItsWay(s', payload) || (forall p | p in s.live :: Held(p, payload) in s'.inbox) || payload in s'.dropped
  {
    var h :| h in s.unsignalled + s.pending + s.flushing && h.payload == payload;
    var s' := NextState(s, ev);
    match ev
    case Notify(hs) =>
      if h in s.flushing && h in hs {
        assert forall p | p in s.live :: Held(p, h.payload) in Sent(s.live, hs);
      } else {
        assert h in s'.unsignalled + s'.pending + s'.flushing;
      }
    case FlushFails(hs) =>
      if h in s.flushing && h in hs {
        assert h.payload in Payloads(hs);
      } else {
        assert h in s'.unsignalled + s'.pending + s'.flushing;
      }
    case Crash(p) =>
      if h.process == p {
        assert h in Of(s.unsignalled, p) + Of(s.pending, p) + Of(s.flushing, p);
      } else {
        assert h in s'.unsignalled + s'.pending + s'.flushing;
      }
    case _ => assert h in s'.unsignalled + s'.pending + s'.flushing;
  }

  lemma AccountedKept(s: State, ev: Event, w: nat)
    requires Possible(s, ev) && Ok(s) && w in s.waiters && w in NextState(s, ev).waiters && Accounted(s, w)
    ensures Accounted(NextState(s, ev), w)
  {
    if OnItsWay(s, s.waiters[w].payload) {
      WayKept(s, ev, s.waiters[w].payload);
    }
  }

  lemma EventKeeps(s: State, ev: Event)
    requires Possible(s, ev) && Ok(s)
    ensures Ok(NextState(s, ev))
  {
    var s' := NextState(s, ev);
    forall w | w in s'.waiters
      ensures s'.waiters[w].process in s'.live
      ensures s'.waiters[w].phase == Blocked && s'.waiters[w].payload in s'.events ==> Accounted(s', w)
    {
      if w in s.waiters && s.waiters[w].phase == Blocked {
        if s.waiters[w].payload in s.events {
          AccountedKept(s, ev, w);
        } else if ev.Commit? && ev.acknowledged && ev.payload == s.waiters[w].payload {
          assert Held(ev.process, ev.payload) in s'.unsignalled;
        }
      }
    }
  }

  lemma {:induction false} RunKeeps(s: State, evs: seq<Event>)
    requires Ok(s) && History(s, evs)
    ensures Ok(Run(s, evs))
    decreases |evs|
  {
    if |evs| > 0 {
      EventKeeps(s, evs[0]);
      RunKeeps(NextState(s, evs[0]), evs[1..]);
    }
  }

  // The commits of this event are acknowledged, whatever happens to others.
  predicate Acknowledged(evs: seq<Event>, payload: string) {
    forall i | 0 <= i < |evs| :: evs[i].Commit? && evs[i].payload == payload ==> evs[i].acknowledged
  }

  lemma {:induction false} NotSilent(s: State, evs: seq<Event>, payload: string)
    requires History(s, evs)
    ensures payload in s.silent ==> payload in Run(s, evs).silent
    ensures payload !in s.silent ==> (payload in Run(s, evs).silent <==> !Acknowledged(evs, payload))
    decreases |evs|
  {
    if |evs| > 0 {
      NotSilent(NextState(s, evs[0]), evs[1..], payload);
      assert Acknowledged(evs, payload) <==> Acknowledged(evs[1..], payload) && (evs[0].Commit? && evs[0].payload == payload ==> evs[0].acknowledged) by {
        assert forall i | 0 < i < |evs| :: evs[i] == evs[1..][i - 1];
      }
    }
  }

  /**
  No lost wakeup: in no reachable state is a reader blocked on a committed event whose payload is neither on its way, nor
  in the reader's inbox, nor delivered to it, nor dropped by a failed flush or a crash, if the commits of that event are
  acknowledged.
  */
  lemma NoLostWakeup(evs: seq<Event>, w: nat)
    requires History(Start, evs) && w in Run(Start, evs).waiters && Acknowledged(evs, Run(Start, evs).waiters[w].payload)
    requires Run(Start, evs).waiters[w].phase == Blocked && Run(Start, evs).waiters[w].payload in Run(Start, evs).events
    ensures var e := Run(Start, evs);
            || e.waiters[w].woken || OnItsWay(e, e.waiters[w].payload)
            || Held(e.waiters[w].process, e.waiters[w].payload) in e.inbox || e.waiters[w].payload in e.dropped
  {
    RunKeeps(Start, evs);
    NotSilent(Start, evs, Run(Start, evs).waiters[w].payload);
  }

  lemma Unfold(s: State, ev: Event, rest: seq<Event>)
    requires Possible(s, ev) && History(NextState(s, ev), rest)
    ensures History(s, [ev] + rest) && Run(s, [ev] + rest) == Run(NextState(s, ev), rest)
  {
    assert ([ev] + rest)[1..] == rest;
  }

  // Blocked on a committed event, with nothing left to wake it but its own polling.
  predicate Lost(s: State, w: nat) {
    && w in s.waiters && s.waiters[w].phase == Blocked && s.waiters[w].payload in s.events && !s.waiters[w].woken
    && s.unsignalled == {} && s.pending == {} && s.flushing == {} && s.inbox == {} && s.dropped == {}
  }

  /**
  A commit whose acknowledgement is lost is retried as a replay, which does not signal: the reader is left to its
  polling interval.
  */
  lemma UnacknowledgedCommitIsSilent() returns (evs: seq<Event>)
    ensures History(Start, evs) && Lost(Run(Start, evs), 0)
  {
    var e1, e2, e3, e4 := Join(0), Register(0, 0, "k"), Read(0), Commit(0, "k", false);
    var s1 := NextState(Start, e1);
    var s2 := NextState(s1, e2);
    var s3 := NextState(s2, e3);
    var s4 := NextState(s3, e4);
    Unfold(s3, e4, []);
    Unfold(s2, e3, [e4] + []);
    Unfold(s1, e2, [e3] + ([e4] + []));
    Unfold(Start, e1, [e2] + ([e3] + ([e4] + [])));
    evs := [e1] + ([e2] + ([e3] + ([e4] + [])));
  }

  // ---------- The data structures ----------

  /** Callbacks by key. Handles are numbered, so that a call deregisters its own callback only. */
  class NotificationMap {
    var callbacks: map<string, map<nat, nat>>
    var curCK: nat

    ghost predicate Valid()
      reads this
    {
      forall key | key in callbacks :: callbacks[key] != map[] && forall ck | ck in callbacks[key] :: ck < curCK
    }

    ghost predicate Has(key: string, ck: nat)
      reads this
    {
      key in callbacks && ck in callbacks[key]
    }

    constructor ()
      ensures Valid() && callbacks == map[]
    {
      callbacks, curCK := map[], 0;
    }

    method RegisterCallback(key: string, waiter: nat) returns (ck: nat)
      requires Valid()
      modifies this
      ensures Valid() && !old(Has(key, ck)) && Has(key, ck) && callbacks[key][ck] == waiter
      ensures forall k, c | k != key || c != ck :: Has(k, c) == old(Has(k, c)) && (Has(k, c) ==> callbacks[k][c] == old(callbacks[k][c]))
    {
      ck := curCK;
      var sub := if key in callbacks then callbacks[key] else map[];
      callbacks := callbacks[key := sub[ck := waiter]];
      assert ck in callbacks[key];
      curCK := curCK + 1;
    }

    method DeregisterCallback(key: string, ck: nat)
      requires Valid()
      modifies this`callbacks
      ensures Valid() && !Has(key, ck)
      ensures forall k, c | k != key || c != ck :: Has(k, c) == old(Has(k, c)) && (Has(k, c) ==> callbacks[k][c] == old(callbacks[k][c]))
    {
      if key !in callbacks || ck !in callbacks[key] {
        return;
      }
      var sub := callbacks[key] - {ck};
      if sub == map[] {
        callbacks := callbacks - {key};
        assert forall c | c in old(callbacks)[key] && c != ck :: c in sub;
      } else {
        callbacks := callbacks[key := sub];
      }
    }

    /** Calls every callback of the key and no other. */
    method CallCallbacks(key: string) returns (called: set<nat>)
      requires Valid()
      ensures forall w :: w in called <==> exists ck :: Has(key, ck) && callbacks[key][ck] == w
    {
      called := {};
      if key !in callbacks {
        return;
      }
      var left := callbacks[key].Keys;
      while left != {}
        invariant left <= callbacks[key].Keys
        invariant forall w :: w in called <==> exists ck :: ck in callbacks[key].Keys - left && callbacks[key][ck] == w
      {
        var ck :| ck in left;
        ghost var done := callbacks[key].Keys - left;
        assert callbacks[key].Keys - (left - {ck}) == done + {ck};
        called := called + {callbacks[key][ck]};
        left := left - {ck};
      }
      assert callbacks[key].Keys - left == callbacks[key].Keys;
    }
  }

  datatype Payload = Payload(channel: string, text: string)

  class PendingNotifications {
    var batches: map<string, set<string>>

    ghost function Contents(): set<Payload>
      reads this
    {
      set c, t | c in batches && t in batches[c] :: Payload(c, t)
    }

    method SignalNotification(channel: string, text: string)
      modifies this
      ensures Contents() == old(Contents()) + {Payload(channel, text)}
    {
      var batch := if channel in batches then batches[channel] else {};
      batches := batches[channel := batch + {text}];
    }

    /** Grabs everything and notifies channel by channel; a channel that fails loses its own batch only. */
    method FlushNotifications(failing: set<string>) returns (sent: set<Payload>)
      modifies this
      ensures Contents() == {}
      ensures sent == set p | p in old(Contents()) && p.channel !in failing
    {
      var grabbed := batches;
      ghost var before := Contents();
      batches := map[];
      sent := {};
      var left := grabbed.Keys;
      while left != {}
        invariant left <= grabbed.Keys
        invariant sent == set p | p in before && p.channel !in failing && p.channel !in left
        invariant batches == map[]
      {
        var channel :| channel in left;
        if channel !in failing {
          sent := sent + set t | t in grabbed[channel] :: Payload(channel, t);
        }
        left := left - {channel};
      }
    }
  }
}
