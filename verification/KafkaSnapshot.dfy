/**
Ordered Kafka consumption with the dequeues as they are: transactions that read snapshots and overlap. Deliveries,
restarts, completions, cancellations and recoveries commit in between.
*/
module KafkaSnapshot {
  import opened Common
  import opened WorkflowStatus
  import opened StatusMachine
  import opened SnapshotDequeue
  import Q = QueueDispatch
  import K = KafkaOrder

  // The consumer of the partition, and the open dequeues of its key.
  datatype World = World(sys: K.System, open: map<nat, Tx>)

  datatype Happening =
    | Kafka(ev: K.Event)      // everything but dequeues of the key
    | Snap(step: Event)

  function ConfigOf(u: K.Setup, isLatest: bool): Config {
    Config(u.queue, Some(u.key), u.version, isLatest)
  }

  function Tables(w: World): State {
    State(w.sys.t, w.open)
  }

  // What an event commits to the table, if anything.
  function TableOp(u: K.Setup, s: K.System, ev: K.Event): Option<Op>
    requires ev.Deliver? ==> ev.first <= ev.end
  {
    match ev
    case Deliver(a, b, now, seed, result) =>
      if result.Failed? then None else Some(EnqueueMany(K.BatchRows(u, a, b, K.Base(K.Seeded(s.cursor, seed), now))))
    case Restart => None
    case Dequeued(d) => Some(d.Update())
    case Other(op) => Some(op)
  }

  ghost predicate Can(u: K.Setup, c: Config, w: World, h: Happening) {
    match h
    case Kafka(ev) =>
      && K.Possible(u, w.sys, ev) && (ev.Dequeued? ==> ev.d.Target() != u.Target())
      && (TableOp(u, w.sys, ev).Some? ==> Possible(c, Tables(w), Other(TableOp(u, w.sys, ev).value)))
    case Snap(ev) => !ev.Other? && Possible(c, Tables(w), ev)
  }

  ghost function NextWorld(u: K.Setup, c: Config, w: World, h: Happening): World
    requires Can(u, c, w, h)
  {
    match h
    case Kafka(ev) =>
      var op := TableOp(u, w.sys, ev);
      World(K.NextSystem(u, w.sys, ev), if op.Some? then NextState(c, Tables(w), Other(op.value)).open else w.open)
    case Snap(ev) =>
      var s := NextState(c, Tables(w), ev);
      World(w.sys.(t := s.t), s.open)
  }

  ghost predicate Story(u: K.Setup, c: Config, w: World, hs: seq<Happening>)
    decreases |hs|
  {
    |hs| == 0 || (Can(u, c, w, hs[0]) && Story(u, c, NextWorld(u, c, w, hs[0]), hs[1..]))
  }

  ghost function Tell(u: K.Setup, c: Config, w: World, hs: seq<Happening>): World
    requires Story(u, c, w, hs)
    decreases |hs|
  {
    if |hs| == 0 then w else Tell(u, c, NextWorld(u, c, w, hs[0]), hs[1..])
  }

  // Messages that have not settled are left where they are, and a resumed message does not overtake an open dequeue.
  ghost predicate Quiet(u: K.Setup, c: Config, w: World, h: Happening) {
    h.Kafka? ==>
      && K.Undisturbed(u, w.sys, h.ev)
      && (h.ev.Other? && h.ev.op.Resume? ==> NotOvertaken(c, Tables(w), Next(w.sys.t, h.ev.op)))
  }

  ghost predicate AllQuiet(u: K.Setup, c: Config, w: World, hs: seq<Happening>)
    requires Story(u, c, w, hs)
    decreases |hs|
  {
    |hs| == 0 || (Quiet(u, c, w, hs[0]) && AllQuiet(u, c, NextWorld(u, c, w, hs[0]), hs[1..]))
  }

  // ---------- What is kept ----------

  ghost predicate Fine(u: K.Setup, c: Config, w: World) {
    u.Valid() && c == ConfigOf(u, c.isLatest) && K.Ok(u, w.sys) && Sound(c, 1, Tables(w))
  }

  // The eligible rows are messages, with their stamps in offset order.
  lemma EligibleIsMessage(u: K.Setup, c: Config, s: K.System, id: string) returns (o: nat)
    requires K.IdsMatch(u, s) && c.Target() == u.Target() && id in c.Eligible(s.t)
    ensures K.Enqueuable(u, s, o) && id == u.Id(o)
  {
    o :| K.Enqueuable(u, s, o) && id == u.Id(o);
  }

  lemma ActiveIsEligible(u: K.Setup, c: Config, s: K.System, o: nat)
    requires K.IdsMatch(u, s) && K.AllInPlace(u, s) && c == ConfigOf(u, c.isLatest) && K.Enqueuable(u, s, o) && K.Active(s.t[u.Id(o)])
    ensures u.Id(o) in c.Eligible(s.t) || u.Id(o) in c.Running(s.t)
  {
    assert K.InPlace(u, s.t[u.Id(o)]);
  }

  lemma OrderedByOffset(u: K.Setup, s: K.System, o: nat, p: nat)
    requires K.Ok(u, s) && K.Enqueuable(u, s, o) && K.Enqueuable(u, s, p)
    requires s.t[u.Id(o)].status.Enqueued? && s.t[u.Id(p)].status.Enqueued? && o < p
    ensures StrictlyBefore(s.t[u.Id(o)], s.t[u.Id(p)])
  {
    assert K.InPlace(u, s.t[u.Id(o)]) && K.InPlace(u, s.t[u.Id(p)]);
  }

  // ---------- No tie, and nobody overtakes ----------

  lemma {:induction false} FirstOf(u: K.Setup, c: Config, s: K.System, ids: set<string>) returns (f: string)
    requires u.Valid() && K.Ok(u, s) && c.Target() == u.Target()
    requires ids <= c.Eligible(s.t) && ids != {}
    ensures f in ids && forall e | e in ids && e != f :: StrictlyBefore(s.t[f], s.t[e])
    decreases ids
  {
    var x :| x in ids;
    if ids == {x} {
      return x;
    }
    f := FirstOf(u, c, s, ids - {x});
    var o := EligibleIsMessage(u, c, s, x);
    var p := EligibleIsMessage(u, c, s, f);
    if o < p {
      OrderedByOffset(u, s, o, p);
      f := x;
    } else {
      OrderedByOffset(u, s, p, o);
    }
  }

  lemma NeverATie(u: K.Setup, c: Config, s: K.System)
    requires u.Valid() && K.Ok(u, s) && c.Target() == u.Target()
    ensures NoTieForFirst(c, s.t)
  {
    if c.Eligible(s.t) != {} {
      var f := FirstOf(u, c, s, c.Eligible(s.t));
      assert IsFirst(c, s.t, f);
    }
  }

  // A dequeue that can claim has seen nothing running, for the limit is one.
  lemma RoomMeansNothingRuns(c: Config, tx: Tx)
    requires c.queue.concurrency == Some(1) && c.Mine(tx.d) && !tx.d.Refused(tx.snap)
    ensures c.Running(tx.snap) == {}
  {
  }

  lemma SettledComesNotBack(u: K.Setup, s: K.System, ev: K.Event, n: nat)
    requires u.Valid() && K.Ok(u, s) && K.Possible(u, s, ev) && K.Enqueuable(u, s, n) && !(ev.Other? && ev.op.Resume?)
    requires u.Id(n) in K.NextSystem(u, s, ev).t && K.Active(K.NextSystem(u, s, ev).t[u.Id(n)])
    ensures K.Active(s.t[u.Id(n)])
  {
    if !K.Active(s.t[u.Id(n)]) {
      K.StillSettled(u, s, ev, n);
    }
  }

  // A row of the key that is active after the event was enqueued before it, or is a later message.
  lemma ComesAfter(u: K.Setup, c: Config, w: World, ev: K.Event, f: string, n: string)
    requires Fine(u, c, w) && K.Possible(u, w.sys, ev) && TableOp(u, w.sys, ev).Some? && K.Ok(u, K.NextSystem(u, w.sys, ev))
    requires IsFirst(c, w.sys.t, f) && c.Running(w.sys.t) == {} && n != f && !(ev.Other? && ev.op.Resume?)
    requires var t' := K.NextSystem(u, w.sys, ev).t;
             t' == Next(w.sys.t, TableOp(u, w.sys, ev).value) && Unchanged(w.sys.t, t', f) && n in c.Eligible(t')
    ensures StrictlyBefore(w.sys.t[f], K.NextSystem(u, w.sys, ev).t[n])
  {
    var s, s' := w.sys, K.NextSystem(u, w.sys, ev);
    var o := EligibleIsMessage(u, c, s, f);
    var p := EligibleIsMessage(u, c, s', n);
    assert f in c.Eligible(s'.t);
    var o' := EligibleIsMessage(u, c, s', f);
    assert o' == o;
    if o < p {
      OrderedByOffset(u, s', o, p);
    } else {
      assert K.Enqueuable(u, s, p);
      SettledComesNotBack(u, s, ev, p);
      ActiveIsEligible(u, c, s, p);
      OrderedByOffset(u, s, p, o);
    }
  }

  lemma BehindFirst(u: K.Setup, c: Config, w: World, ev: K.Event, tx: Tx, t': Table)
    requires Fine(u, c, w) && K.Possible(u, w.sys, ev) && TableOp(u, w.sys, ev).Some? && K.Ok(u, K.NextSystem(u, w.sys, ev))
    requires t' == Next(w.sys.t, TableOp(u, w.sys, ev).value) == K.NextSystem(u, w.sys, ev).t
    requires !Harmless(c, tx) && c.Mine(tx.d) && Judged(c, w.sys.t, tx) && !(ev.Other? && ev.op.Resume?)
    ensures Behind(c, w.sys.t, t', tx)
  {
    var t := w.sys.t;
    RoomMeansNothingRuns(c, tx);
    var g :| IsFirst(c, tx.snap, g) && (g in tx.touched || Current(c, t, tx, g));
    forall f, n | f !in tx.touched && IsFirst(c, tx.snap, f) && Unchanged(t, t', f) && n in c.Eligible(t') && n != f && !Unchanged(t, t', n)
      ensures StrictlyBefore(t[f], t'[n])
    {
      FirstIsOne(c, tx.snap, f, g);
      ComesAfter(u, c, w, ev, f, n);
    }
  }

  lemma SameTable(u: K.Setup, s: K.System, ev: K.Event)
    requires (ev.Deliver? ==> ev.first <= ev.end) && TableOp(u, s, ev).Some?
    ensures K.NextSystem(u, s, ev).t == Next(s.t, TableOp(u, s, ev).value)
  {
  }

  lemma NobodyOvertakes(u: K.Setup, c: Config, w: World, ev: K.Event)
    requires Fine(u, c, w) && Can(u, c, w, Kafka(ev)) && Quiet(u, c, w, Kafka(ev)) && TableOp(u, w.sys, ev).Some?
    requires K.Ok(u, K.NextSystem(u, w.sys, ev))
    ensures NotOvertaken(c, Tables(w), Next(w.sys.t, TableOp(u, w.sys, ev).value))
  {
    SameTable(u, w.sys, ev);
    if !(ev.Other? && ev.op.Resume?) {
      forall x | x in w.open && !Harmless(c, w.open[x]) ensures Behind(c, w.sys.t, Next(w.sys.t, TableOp(u, w.sys, ev).value), w.open[x]) {
        BehindFirst(u, c, w, ev, w.open[x], Next(w.sys.t, TableOp(u, w.sys, ev).value));
      }
    }
  }

  // ---------- Each happening ----------

  lemma KafkaKeeps(u: K.Setup, c: Config, w: World, ev: K.Event)
    requires Fine(u, c, w) && Can(u, c, w, Kafka(ev)) && Quiet(u, c, w, Kafka(ev))
    ensures Fine(u, c, NextWorld(u, c, w, Kafka(ev)))
  {
    K.EventKeeps(u, w.sys, ev);
    var op := TableOp(u, w.sys, ev);
    if op.Some? {
      NobodyOvertakes(u, c, w, ev);
      OtherSoundExactly(c, 1, Tables(w), op.value);
      SameTable(u, w.sys, ev);
    } else {
      assert K.NextSystem(u, w.sys, ev).t == w.sys.t;
    }
  }

  lemma ClaimKeepsKafka(u: K.Setup, c: Config, s: K.System, tx: Tx)
    requires u.Valid() && K.Ok(u, s) && tx.sel.Some? && c == ConfigOf(u, c.isLatest) && c.Mine(tx.d)
    ensures K.Ok(u, s.(t := Next(s.t, Update(tx))))
  {
    K.OtherKeepsOrderExactly(u, s, Update(tx));
  }

  lemma SnapKeeps(u: K.Setup, c: Config, w: World, ev: Event)
    requires Fine(u, c, w) && Can(u, c, w, Snap(ev))
    ensures Fine(u, c, NextWorld(u, c, w, Snap(ev)))
  {
    NeverATie(u, c, w.sys);
    OrderlyKeeps(c, 1, Tables(w), ev);
    if ev.Commit? {
      ClaimKeepsKafka(u, c, w.sys, w.open[ev.x]);
    } else {
      assert w.sys.(t := w.sys.t) == w.sys;
    }
  }

  lemma {:induction false} StoryKeeps(u: K.Setup, c: Config, w: World, hs: seq<Happening>)
    requires Fine(u, c, w) && Story(u, c, w, hs) && AllQuiet(u, c, w, hs)
    ensures Fine(u, c, Tell(u, c, w, hs))
    decreases |hs|
  {
    if |hs| > 0 {
      match hs[0] {
        case Kafka(ev) => KafkaKeeps(u, c, w, ev);
        case Snap(ev) => SnapKeeps(u, c, w, ev);
      }
      StoryKeeps(u, c, NextWorld(u, c, w, hs[0]), hs[1..]);
    }
  }

  // ---------- Main result ----------

  // With a limit of one a commit claims the first row of the table, and nothing runs.
  lemma ClaimIsAlone(c: Config, t: Table, tx: Tx, id: string)
    requires c.queue.concurrency == Some(1) && c.Mine(tx.d) && tx.sel.Some? && Lawful(c, tx) && Judged(c, t, tx) && TxOk(t, tx)
    requires id in tx.Claims()
    ensures IsFirst(c, t, id) && c.Running(t) == {}
  {
    var f := ClaimantIsCurrent(c, t, tx);
    ClaimsLegal(c, tx);
    var d := tx.d.(claimed := tx.Claims());
    Q.ClaimsBounded(d, tx.snap);
    OnlyOne(tx.Claims(), f, id);
  }

  lemma OnlyOne(s: seq<string>, a: string, b: string)
    requires |s| <= 1 && a in Q.Ids(s) && b in s
    ensures a == b
  {
  }

  /**
  Ordered processing with snapshot dequeues: whenever a dequeue commits its claim of a message, the workflow of every
  earlier message that was not dropped exists and is neither ENQUEUED nor PENDING.
  */
  lemma SnapshotStartsInOffsetOrder(u: K.Setup, c: Config, w: World, hs: seq<Happening>, x: nat, o: nat, p: nat)
    requires u.Valid() && c == ConfigOf(u, c.isLatest) && K.Empty(w.sys) && w.open == map[] && Story(u, c, w, hs) && AllQuiet(u, c, w, hs)
    requires Can(u, c, Tell(u, c, w, hs), Snap(Commit(x)))
    requires u.Id(o) in Tell(u, c, w, hs).open[x].Claims() && p < o && !u.poison(p) && !u.poison(o)
    ensures var e := Tell(u, c, w, hs).sys; u.Id(p) in e.t && !K.Active(e.t[u.Id(p)])
  {
    assert K.Ok(u, w.sys);
    assert c.Running(w.sys.t) == {};
    StoryKeeps(u, c, w, hs);
    var v := Tell(u, c, w, hs);
    ClaimIsAlone(c, v.sys.t, v.open[x], u.Id(o));
    EarlierNotActive(u, c, v.sys, o, p);
  }

  lemma EarlierNotActive(u: K.Setup, c: Config, s: K.System, o: nat, p: nat)
    requires u.Valid() && K.Ok(u, s) && c == ConfigOf(u, c.isLatest) && p < o && !u.poison(p)
    requires IsFirst(c, s.t, u.Id(o)) && c.Running(s.t) == {}
    ensures u.Id(p) in s.t && !K.Active(s.t[u.Id(p)])
  {
    var q := EligibleIsMessage(u, c, s, u.Id(o));
    assert q == o && K.Enqueuable(u, s, p);
    if K.Active(s.t[u.Id(p)]) {
      ActiveIsEligible(u, c, s, p);
      OrderedByOffset(u, s, p, o);
    }
  }
}
