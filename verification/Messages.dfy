/**
Messages between workflows: `send` inserts a notification and `recv` consumes the oldest one, each in one transaction
with the checkpoint of its step.

An attempt at a step first looks for the step's checkpoint and replays it if it is there. Otherwise it later runs its
transaction, which is rolled back if meanwhile somebody else has recorded the step. The UPDATE of a recv chooses the
oldest message when it starts; if a concurrent recv takes that message first, it updates nothing. Attempts of crashed,
retried and competing executions interleave freely; a commit whose acknowledgement is lost is a commit.
*/
module Messages {
  import opened Common

  datatype Kind = SendStep | RecvStep | OtherStep

  datatype Record = Record(kind: Kind, stamp: int, output: Option<string>)

  datatype Note = Note(dest: string, topic: string, message: Option<string>, createdAt: int, consumed: bool)

  datatype Tables = Tables(rows: map<StepKey, Record>, notes: map<string, Note>)

  // The conflict check of a checkpoint: somebody else recorded the step.
  predicate Conflicts(db: Tables, step: StepKey, stamp: int) {
    step in db.rows && db.rows[step].stamp != stamp
  }

  function Recorded(rows: map<StepKey, Record>, step: StepKey, r: Record): map<StepKey, Record> {
    if step in rows then rows else rows[step := r]
  }

  function Posted(notes: map<string, Note>, id: string, note: Note): map<string, Note> {
    if id in notes then notes else notes[id := note]
  }

  function SendTx(db: Tables, step: StepKey, stamp: int, id: string, note: Note): Tables {
    if Conflicts(db, step, stamp) then db
    else Tables(Recorded(db.rows, step, Record(SendStep, stamp, None)), Posted(db.notes, id, note))
  }

  predicate InBox(note: Note, dest: string, topic: string) {
    note.dest == dest && note.topic == topic && !note.consumed
  }

  // ORDER BY created_at_epoch_ms ASC LIMIT 1 over what is not consumed.
  predicate IsOldest(notes: map<string, Note>, dest: string, topic: string, pick: Option<string>) {
    match pick
    case None => forall id | id in notes :: !InBox(notes[id], dest, topic)
    case Some(p) =>
      && p in notes && InBox(notes[p], dest, topic)
      && forall id | id in notes && InBox(notes[id], dest, topic) :: notes[p].createdAt <= notes[id].createdAt
  }

  function RecvTx(db: Tables, step: StepKey, stamp: int, pick: Option<string>): Tables
    requires pick.Some? ==> pick.value in db.notes
  {
    if Conflicts(db, step, stamp) then db
    else
      var output := if pick.Some? then db.notes[pick.value].message else None;
      Tables(Recorded(db.rows, step, Record(RecvStep, stamp, output)),
             if pick.Some? then db.notes[pick.value := db.notes[pick.value].(consumed := true)] else db.notes)
  }

  // ---------- Runs ----------

  // What the UPDATE of a recv has chosen.
  datatype Choice = Choice(topic: string, pick: Option<string>)

  datatype State = State(
    db: Tables,
    checked: map<nat, StepKey>,            // attempts that found no checkpoint
    chosen: map<nat, Choice>,              // recv transactions whose UPDATE has started
    origin: map<string, Option<StepKey>>,  // who inserted a notification; None for a sender outside any workflow
    sent: map<StepKey, string>,            // the message of a recorded send
    received: map<StepKey, Option<string>>) // what a recorded recv consumed

  datatype Event =
    | Check(a: nat, step: StepKey)
    | CommitSend(a: nat, stamp: int, id: string, note: Note)
    | Choose(a: nat, topic: string, pick: Option<string>)
    | CommitRecv(a: nat, stamp: int)
    | Drop(a: nat)
    | SendDirect(id: string, note: Note)
    | OtherRecord(step: StepKey, stamp: int, output: Option<string>)

  predicate Possible(s: State, ev: Event) {
    match ev
    case Check(a, step) => a !in s.checked && step !in s.db.rows
    case CommitSend(a, _, _, note) => a in s.checked && !note.consumed
    case Choose(a, topic, pick) =>
      a in s.checked && a !in s.chosen && IsOldest(s.db.notes, s.checked[a].workflow, topic, pick)
    case CommitRecv(a, _) => a in s.checked && a in s.chosen
    case Drop(a) => a in s.checked
    case SendDirect(_, note) => !note.consumed
    case OtherRecord(step, _, _) => step !in s.db.rows
  }

  // Competing recorders of one of these steps have distinct end stamps.
  ghost predicate DistinctStamps(s: State, ev: Event, steps: iset<StepKey>) {
    (ev.CommitSend? || ev.CommitRecv?) && ev.a in s.checked && s.checked[ev.a] in steps ==>
      s.checked[ev.a] !in s.db.rows || s.db.rows[s.checked[ev.a]].stamp != ev.stamp
  }

  // The message that the UPDATE gets: its choice, unless somebody has taken it meanwhile.
  function Taken(s: State, a: nat): Option<string>
    requires a in s.chosen
  {
    var pick := s.chosen[a].pick;
    if pick.Some? && pick.value in s.db.notes && !s.db.notes[pick.value].consumed then pick else None
  }

  function NextState(s: State, ev: Event): State
    requires Possible(s, ev)
  {
    match ev
    case Check(a, step) => s.(checked := s.checked[a := step])
    case Drop(a) => s.(checked := s.checked - {a}, chosen := s.chosen - {a})
    case Choose(a, topic, pick) => s.(chosen := s.chosen[a := Choice(topic, pick)])
    case CommitSend(a, stamp, id, note) =>
      var step := s.checked[a];
      var s1 := s.(db := SendTx(s.db, step, stamp, id, note), checked := s.checked - {a}, chosen := s.chosen - {a});
      if Conflicts(s.db, step, stamp) then s1
      else s1.(origin := if id in s.db.notes then s.origin else s.origin[id := Some(step)], sent := s.sent[step := id])
    case CommitRecv(a, stamp) =>
      var step := s.checked[a];
      var s1 := s.(db := RecvTx(s.db, step, stamp, Taken(s, a)), checked := s.checked - {a}, chosen := s.chosen - {a});
      if Conflicts(s.db, step, stamp) then s1 else s1.(received := s.received[step := Taken(s, a)])
    case SendDirect(id, note) =>
      s.(db := s.db.(notes := Posted(s.db.notes, id, note)), origin := if id in s.db.notes then s.origin else s.origin[id := None])
    case OtherRecord(step, stamp, output) => s.(db := s.db.(rows := s.db.rows[step := Record(OtherStep, stamp, output)]))
  }

  predicate History(s: State, evs: seq<Event>)
    decreases |evs|
  {
    |evs| == 0 || (Possible(s, evs[0]) && History(NextState(s, evs[0]), evs[1..]))
  }

  function Run(s: State, evs: seq<Event>): State
    requires History(s, evs)
    decreases |evs|
  {
    if |evs| == 0 then s else Run(NextState(s, evs[0]), evs[1..])
  }

  ghost predicate Stamped(s: State, evs: seq<Event>, steps: iset<StepKey>)
    requires History(s, evs)
    decreases |evs|
  {
    |evs| == 0 || (DistinctStamps(s, evs[0], steps) && Stamped(NextState(s, evs[0]), evs[1..], steps))
  }

  ghost function StepsOf(w: string): iset<StepKey> {
    iset k: StepKey | k.workflow == w
  }

  const Empty := State(Tables(map[], map[]), map[], map[], map[], map[], map[])

  // ---------- What is kept ----------

  predicate IsKind(s: State, k: StepKey, kind: Kind) {
    k in s.db.rows && s.db.rows[k].kind == kind
  }

  // A recorded send and its message.
  ghost predicate SendOk(s: State, k: StepKey) {
    && s.origin.Keys == s.db.notes.Keys
    && (k in s.sent ==> IsKind(s, k, SendStep) && s.sent[k] in s.db.notes)
    && (IsKind(s, k, SendStep) ==> k in s.sent)
    && (forall u | u in s.origin && s.origin[u] == Some(k) :: k in s.sent && s.sent[k] == u)
  }

  // The recv step k consumed message u, and its checkpoint says so.
  predicate Took(s: State, k: StepKey, u: string) {
    && k in s.received && s.received[k] == Some(u)
    && u in s.db.notes && s.db.notes[u].consumed && s.db.notes[u].dest == k.workflow
    && IsKind(s, k, RecvStep) && s.db.rows[k].output == s.db.notes[u].message
  }

  // The messages to workflow w and its recv steps.
  ghost predicate RecvsOk(s: State, w: string) {
    && (forall k | k in s.received && k.workflow == w :: IsKind(s, k, RecvStep) && (s.received[k].Some? ==> Took(s, k, s.received[k].value)))
    && (forall k | IsKind(s, k, RecvStep) && k.workflow == w :: k in s.received)
    && (forall k, l | k in s.received && l in s.received && k.workflow == w == l.workflow && k != l && s.received[k].Some? ::
          s.received[k] != s.received[l])
    && (forall u | u in s.db.notes && s.db.notes[u].dest == w && s.db.notes[u].consumed :: exists k :: Took(s, k, u))
  }

  // Whoever receives a message is its destination.
  predicate ReceivedOk(s: State) {
    forall k | k in s.received && s.received[k].Some? ::
      s.received[k].value in s.db.notes && s.db.notes[s.received[k].value].dest == k.workflow
  }

  // A choice is a message to the receiving workflow.
  predicate ChoicesOk(s: State) {
    forall a | a in s.chosen ::
      && a in s.checked
      && (s.chosen[a].pick.Some? ==>
            s.chosen[a].pick.value in s.db.notes
            && s.db.notes[s.chosen[a].pick.value].dest == s.checked[a].workflow
            && s.db.notes[s.chosen[a].pick.value].topic == s.chosen[a].topic)
  }

  // Tables that only grow, without touching what the recvs of w have done.
  lemma RecvsStay(s: State, s': State, w: string)
    requires RecvsOk(s, w) && Grows(s.db, s'.db)
    requires forall k: StepKey | k.workflow == w :: (k in s'.received <==> k in s.received) && (k in s.received ==> s'.received[k] == s.received[k])
    requires forall k | k in s'.db.rows && k !in s.db.rows && k.workflow == w :: s'.db.rows[k].kind != RecvStep
    requires forall u | u in s'.db.notes && s'.db.notes[u].dest == w && s'.db.notes[u].consumed :: u in s.db.notes && s.db.notes[u].consumed
    ensures RecvsOk(s', w)
  {
    forall k | k in s'.received && k.workflow == w
      ensures IsKind(s', k, RecvStep) && (s'.received[k].Some? ==> Took(s', k, s'.received[k].value))
    {
    }
    forall u | u in s'.db.notes && s'.db.notes[u].dest == w && s'.db.notes[u].consumed ensures exists k :: Took(s', k, u) {
      var k :| Took(s, k, u);
      assert Took(s', k, u);
    }
  }

  // A recv of w that records: a new step that takes an unconsumed message, or nothing.
  lemma RecvTakes(s: State, s': State, k: StepKey, stamp: int, pick: Option<string>)
    requires RecvsOk(s, k.workflow) && k !in s.db.rows && (pick.Some? ==> pick.value in s.db.notes && !s.db.notes[pick.value].consumed)
    requires pick.Some? ==> s.db.notes[pick.value].dest == k.workflow
    requires s'.db == RecvTx(s.db, k, stamp, pick) && s'.received == s.received[k := pick]
    ensures RecvsOk(s', k.workflow)
  {
    assert k !in s.received;
    forall l | l in s.received && l.workflow == k.workflow
      ensures IsKind(s', l, RecvStep) && (s.received[l].Some? ==> Took(s', l, s.received[l].value))
    {
      assert s.received[l].Some? ==> Took(s, l, s.received[l].value);
    }
    assert pick.Some? ==> Took(s', k, pick.value);
    forall u | u in s'.db.notes && s'.db.notes[u].dest == k.workflow && s'.db.notes[u].consumed ensures exists l :: Took(s', l, u) {
      if pick != Some(u) {
        var l :| Took(s, l, u);
        assert Took(s', l, u);
      }
    }
    forall a, b | a in s'.received && b in s'.received && a.workflow == k.workflow == b.workflow && a != b && s'.received[a].Some?
      ensures s'.received[a] != s'.received[b]
    {
      assert a in s.received && s.received[a].Some? ==> Took(s, a, s.received[a].value);
      assert b in s.received && s.received[b].Some? ==> Took(s, b, s.received[b].value);
    }
  }

  lemma SendKept(s: State, ev: Event, k: StepKey)
    requires SendOk(s, k) && Possible(s, ev) && DistinctStamps(s, ev, iset{k})
    ensures SendOk(NextState(s, ev), k)
  {
    if ev.CommitSend? {
      CommitSendKeeps(s, ev, k);
    }
  }

  lemma CommitSendKeeps(s: State, ev: Event, k: StepKey)
    requires SendOk(s, k) && Possible(s, ev) && ev.CommitSend? && DistinctStamps(s, ev, iset{k})
    ensures SendOk(NextState(s, ev), k)
  {
    var s' := NextState(s, ev);
    if s.checked[ev.a] == k && k !in s.db.rows {
      assert k !in s.sent;
    }
    forall u | u in s'.origin && s'.origin[u] == Some(k) ensures k in s'.sent && s'.sent[k] == u {
      assert u != ev.id ==> s'.origin[u] == s.origin[u];
    }
  }

  lemma RecvKept(s: State, ev: Event, w: string)
    requires RecvsOk(s, w) && ChoicesOk(s) && Possible(s, ev) && DistinctStamps(s, ev, StepsOf(w))
    ensures RecvsOk(NextState(s, ev), w)
  {
    var s' := NextState(s, ev);
    EventGrows(s, ev);
    if ev.CommitRecv? && s.checked[ev.a].workflow == w && !Conflicts(s.db, s.checked[ev.a], ev.stamp) {
      RecvTakes(s, s', s.checked[ev.a], ev.stamp, Taken(s, ev.a));
    } else {
      RecvsStay(s, s', w);
    }
  }

  lemma ReceivedKept(s: State, ev: Event)
    requires ReceivedOk(s) && ChoicesOk(s) && Possible(s, ev)
    ensures ReceivedOk(NextState(s, ev))
  {
    EventGrows(s, ev);
  }

  lemma ChoicesKept(s: State, ev: Event)
    requires ChoicesOk(s) && Possible(s, ev)
    ensures ChoicesOk(NextState(s, ev))
  {
    if !ev.Choose? {
      EventGrows(s, ev);
      ChoicesStay(s, NextState(s, ev));
    }
  }

  lemma ChoicesStay(s: State, s': State)
    requires ChoicesOk(s) && Grows(s.db, s'.db)
    requires forall a | a in s'.chosen :: a in s.chosen && s'.chosen[a] == s.chosen[a] && a in s'.checked && s'.checked[a] == s.checked[a]
    ensures ChoicesOk(s')
  {
  }

  lemma {:induction false} SendAlways(s: State, evs: seq<Event>, k: StepKey)
    requires SendOk(s, k) && History(s, evs) && Stamped(s, evs, iset{k})
    ensures SendOk(Run(s, evs), k)
    decreases |evs|
  {
    if |evs| > 0 {
      SendKept(s, evs[0], k);
      SendAlways(NextState(s, evs[0]), evs[1..], k);
    }
  }

  lemma {:induction false} RecvsAlways(s: State, evs: seq<Event>, w: string)
    requires RecvsOk(s, w) && ChoicesOk(s) && ReceivedOk(s) && History(s, evs) && Stamped(s, evs, StepsOf(w))
    ensures RecvsOk(Run(s, evs), w) && ReceivedOk(Run(s, evs))
    decreases |evs|
  {
    if |evs| > 0 {
      RecvKept(s, evs[0], w);
      ReceivedKept(s, evs[0]);
      ChoicesKept(s, evs[0]);
      RecvsAlways(NextState(s, evs[0]), evs[1..], w);
    }
  }

  // ---------- Main results ----------

  /**
  However often a send step is re-executed, retried after a lost acknowledgement, or raced: it adds at most one
  notification, and once it is recorded its message is there.
  */
  lemma SendsOnce(evs: seq<Event>, k: StepKey)
    requires History(Empty, evs) && Stamped(Empty, evs, iset{k})
    ensures var e := Run(Empty, evs);
            && e.origin.Keys == e.db.notes.Keys
            && (forall u, v | u in e.origin && v in e.origin && e.origin[u] == Some(k) == e.origin[v] :: u == v)
            && (IsKind(e, k, SendStep) ==> k in e.sent && e.sent[k] in e.db.notes)
  {
    SendAlways(Empty, evs, k);
  }

  ghost predicate TakenByOne(s: State, u: string) {
    exists k :: Took(s, k, u) && forall l | l in s.received && s.received[l] == Some(u) :: l == k
  }

  /**
  A notification to a workflow is consumed exactly when it is the recorded output of a recv step of that workflow, and then
  of just one.
  */
  lemma ConsumedByOneRecv(evs: seq<Event>, w: string)
    requires History(Empty, evs) && Stamped(Empty, evs, StepsOf(w))
    ensures var e := Run(Empty, evs);
            && (forall u | u in e.db.notes && e.db.notes[u].dest == w && e.db.notes[u].consumed :: TakenByOne(e, u))
            && (forall k, u | k in e.received && k.workflow == w && e.received[k] == Some(u) :: Took(e, k, u))
            && (forall k | IsKind(e, k, RecvStep) && k.workflow == w :: k in e.received)
  {
    RecvsAlways(Empty, evs, w);
    var e := Run(Empty, evs);
    forall u | u in e.db.notes && e.db.notes[u].dest == w && e.db.notes[u].consumed ensures TakenByOne(e, u) {
      var k :| Took(e, k, u);
      forall l | l in e.received && e.received[l] == Some(u) ensures l == k {
        assert l.workflow == w;
      }
    }
  }

  // Nothing recorded or delivered is lost or altered; consuming is for good.
  predicate Grows(a: Tables, b: Tables) {
    && (forall k | k in a.rows :: k in b.rows && b.rows[k] == a.rows[k])
    && (forall u | u in a.notes ::
          && u in b.notes && b.notes[u] == a.notes[u].(consumed := b.notes[u].consumed)
          && (a.notes[u].consumed ==> b.notes[u].consumed))
  }

  lemma SendGrows(db: Tables, step: StepKey, stamp: int, id: string, note: Note)
    ensures Grows(db, SendTx(db, step, stamp, id, note))
  {
  }

  lemma RecvGrows(db: Tables, step: StepKey, stamp: int, pick: Option<string>)
    requires pick.Some? ==> pick.value in db.notes
    ensures Grows(db, RecvTx(db, step, stamp, pick))
  {
  }

  lemma EventGrows(s: State, ev: Event)
    requires Possible(s, ev)
    ensures Grows(s.db, NextState(s, ev).db)
  {
    match ev
    case CommitSend(a, stamp, id, note) => SendGrows(s.db, s.checked[a], stamp, id, note);
    case CommitRecv(a, stamp) => RecvGrows(s.db, s.checked[a], stamp, Taken(s, a));
    case _ =>
  }

  /** ... and it stays so: checkpoints never change, and no consumed notification is ever delivered again. */
  lemma {:induction false} DeliveredForever(s: State, evs: seq<Event>)
    requires History(s, evs)
    ensures Grows(s.db, Run(s, evs).db)
    decreases |evs|
  {
    if |evs| > 0 {
      EventGrows(s, evs[0]);
      DeliveredForever(NextState(s, evs[0]), evs[1..]);
    }
  }

  // ---------- Equal stamps ----------

  /**
  For an attempt at a step that somebody else has recorded meanwhile, distinct stamps are exactly what keeps the second
  notification out.
  */
  lemma SecondCommitIsSilentExactly(s: State, a: nat, stamp: int, id: string, note: Note)
    requires Possible(s, CommitSend(a, stamp, id, note)) && s.checked[a] in s.db.rows && id !in s.db.notes
    ensures NextState(s, CommitSend(a, stamp, id, note)).db == s.db <==> s.db.rows[s.checked[a]].stamp != stamp
  {
    assert id in Posted(s.db.notes, id, note);
  }

  lemma Unfold(s: State, ev: Event, rest: seq<Event>)
    requires Possible(s, ev) && History(NextState(s, ev), rest)
    ensures History(s, [ev] + rest) && Run(s, [ev] + rest) == Run(NextState(s, ev), rest)
  {
    assert ([ev] + rest)[1..] == rest;
  }

  /** Two executions that check before either commits, and record in the same millisecond, send twice. */
  lemma EqualStampsSendTwice() returns (evs: seq<Event>)
    ensures History(Empty, evs) && |Run(Empty, evs).db.notes| == 2
    ensures var e := Run(Empty, evs); forall u | u in e.db.notes :: u in e.origin && e.origin[u] == Some(StepKey("w", 0))
  {
    var k, note := StepKey("w", 0), Note("d", "t", None, 0, false);
    var e1, e2, e3, e4 := Check(0, k), Check(1, k), CommitSend(0, 7, "m", note), CommitSend(1, 7, "n", note);
    var s1 := NextState(Empty, e1);
    var s2 := NextState(s1, e2);
    var s3 := NextState(s2, e3);
    var s4 := NextState(s3, e4);
    assert s4.db.notes == map["m" := note, "n" := note];
    Unfold(s3, e4, []);
    Unfold(s2, e3, [e4] + []);
    Unfold(s1, e2, [e3] + ([e4] + []));
    Unfold(Empty, e1, [e2] + ([e3] + ([e4] + [])));
    evs := [e1] + ([e2] + ([e3] + ([e4] + [])));
  }

  // ---------- The transactions ----------

  /** The ordered SELECT of recv. */
  method OldestUnconsumed(notes: map<string, Note>, dest: string, topic: string) returns (pick: Option<string>)
    ensures IsOldest(notes, dest, topic, pick)
  {
    pick := None;
    var left := notes.Keys;
    while left != {}
      invariant left <= notes.Keys
      invariant pick.Some? ==> pick.value in notes && InBox(notes[pick.value], dest, topic)
      invariant forall id | id in notes && id !in left && InBox(notes[id], dest, topic) ::
                  pick.Some? && notes[pick.value].createdAt <= notes[id].createdAt
    {
      var id :| id in left;
      if InBox(notes[id], dest, topic) && (pick.None? || notes[id].createdAt < notes[pick.value].createdAt) {
        pick := Some(id);
      }
      left := left - {id};
    }
  }

  class MessageStore {
    var rows: map<StepKey, Record>
    var notes: map<string, Note>

    // The checkpoint of a step inside a transaction: false if somebody else has recorded it.
    method RecordOperation(step: StepKey, r: Record) returns (ok: bool)
      modifies this`rows
      ensures ok == !Conflicts(Tables(old(rows), notes), step, r.stamp)
      ensures rows == if ok then Recorded(old(rows), step, r) else old(rows)
    {
      if step in rows {
        ok := rows[step].stamp == r.stamp;
      } else {
        rows := rows[step := r];
        ok := true;
      }
    }

    /** The transaction of send. A conflict rolls the insert back. */
    method Send(step: StepKey, stamp: int, id: string, note: Note) returns (ok: bool)
      modifies this
      ensures Tables(rows, notes) == SendTx(old(Tables(rows, notes)), step, stamp, id, note)
      ensures ok == !Conflicts(old(Tables(rows, notes)), step, stamp)
    {
      var before := notes;
      if id !in notes {
        notes := notes[id := note];
      }
      ok := RecordOperation(step, Record(SendStep, stamp, None));
      if !ok {
        notes := before;
      }
    }

    /** The transaction of recv: it consumes the oldest message of the topic and records it, or does neither. */
    method Recv(step: StepKey, stamp: int, topic: string) returns (ok: bool, message: Option<string>)
      modifies this
      ensures ok == !Conflicts(old(Tables(rows, notes)), step, stamp)
      ensures exists pick ::
                && IsOldest(old(notes), step.workflow, topic, pick)
                && Tables(rows, notes) == RecvTx(old(Tables(rows, notes)), step, stamp, pick)
                && message == if pick.Some? then old(notes)[pick.value].message else None
    {
      var before := notes;
      var pick := OldestUnconsumed(notes, step.workflow, topic);
      message := None;
      if pick.Some? {
        message := notes[pick.value].message;
        notes := notes[pick.value := notes[pick.value].(consumed := true)];
      }
      ok := RecordOperation(step, Record(RecvStep, stamp, message));
      if !ok {
        notes := before;
      }
      assert IsOldest(before, step.workflow, topic, pick);
    }
  }
}
