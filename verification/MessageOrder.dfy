/**
The order in which notifications are consumed.

Every recv takes the oldest message that it sees. A sender whose transaction is slow to commit can still arrive with a
stamp older than that of a message that has been taken; that is the only way in which the order is broken.
*/
module MessageOrder {
  import opened Common
  import opened Messages

  // The messages to one workflow on one topic.
  datatype Box = Box(dest: string, topic: string) {
    predicate Holds(note: Note) {
      note.dest == dest && note.topic == topic
    }
  }

  // In the box no consumed notification is younger than one that is not.
  predicate ConsumedFirst(notes: map<string, Note>, box: Box) {
    forall u, v | u in notes && v in notes && box.Holds(notes[u]) && box.Holds(notes[v]) && notes[u].consumed && !notes[v].consumed ::
      notes[u].createdAt <= notes[v].createdAt
  }

  // An open recv of the box.
  predicate Receives(s: State, a: nat, box: Box) {
    a in s.chosen && a in s.checked && s.checked[a].workflow == box.dest && s.chosen[a].topic == box.topic
  }

  // An open choice is the oldest of its box, unless it has been taken.
  predicate ChoiceOldest(notes: map<string, Note>, box: Box, c: Choice) {
    c.pick.Some? ==>
      c.pick.value in notes && box.Holds(notes[c.pick.value])
      && (notes[c.pick.value].consumed || IsOldest(notes, box.dest, box.topic, c.pick))
  }

  predicate Orderly(s: State, box: Box) {
    ConsumedFirst(s.db.notes, box) && forall a | a in s.chosen && Receives(s, a, box) :: ChoiceOldest(s.db.notes, box, s.chosen[a])
  }

  // ---------- Arrivals ----------

  // The new notification is not older than any that has been consumed.
  predicate AfterConsumed(notes: map<string, Note>, box: Box, note: Note) {
    forall u | u in notes && box.Holds(notes[u]) && notes[u].consumed :: notes[u].createdAt <= note.createdAt
  }

  // ... nor than one that an open recv has picked.
  predicate AfterPick(notes: map<string, Note>, c: Choice, note: Note) {
    c.pick.Some? && c.pick.value in notes && !notes[c.pick.value].consumed ==> notes[c.pick.value].createdAt <= note.createdAt
  }

  // An arrival in the box, given the recvs that stay open.
  predicate ArrivesInTime(s: State, open: set<nat>, id: string, note: Note, box: Box) {
    id in s.db.notes || !box.Holds(note)
    || (AfterConsumed(s.db.notes, box, note) && forall a | a in open && Receives(s, a, box) :: AfterPick(s.db.notes, s.chosen[a], note))
  }

  predicate InTime(s: State, ev: Event, box: Box) {
    match ev
    case CommitSend(a, stamp, id, note) =>
      a in s.checked && !Conflicts(s.db, s.checked[a], stamp) ==> ArrivesInTime(s, s.chosen.Keys - {a}, id, note, box)
    case SendDirect(id, note) => ArrivesInTime(s, s.chosen.Keys, id, note, box)
    case _ => true
  }

  predicate AllInTime(s: State, evs: seq<Event>, box: Box)
    requires History(s, evs)
    decreases |evs|
  {
    |evs| == 0 || (InTime(s, evs[0], box) && AllInTime(NextState(s, evs[0]), evs[1..], box))
  }

  // ---------- What is kept ----------

  lemma PostKeepsOrderExactly(notes: map<string, Note>, box: Box, id: string, note: Note)
    requires ConsumedFirst(notes, box) && id !in notes && !note.consumed && box.Holds(note)
    ensures ConsumedFirst(notes[id := note], box) <==> AfterConsumed(notes, box, note)
  {
    if ConsumedFirst(notes[id := note], box) {
      forall u | u in notes && box.Holds(notes[u]) && notes[u].consumed ensures notes[u].createdAt <= note.createdAt {
        assert notes[id := note][u] == notes[u] && notes[id := note][id] == note;
      }
    }
  }

  lemma PostKeepsChoiceExactly(notes: map<string, Note>, box: Box, c: Choice, id: string, note: Note)
    requires ChoiceOldest(notes, box, c) && id !in notes && !note.consumed && box.Holds(note)
    ensures ChoiceOldest(notes[id := note], box, c) <==> AfterPick(notes, c, note)
  {
    assert notes[id := note][id] == note;
    assert c.pick.Some? ==> notes[id := note][c.pick.value] == notes[c.pick.value];
  }

  // What happens outside the box does not matter to it.
  lemma PostElsewhere(notes: map<string, Note>, box: Box, id: string, note: Note)
    requires id !in notes && !box.Holds(note)
    ensures ConsumedFirst(notes[id := note], box) <==> ConsumedFirst(notes, box)
    ensures forall c | ChoiceOldest(notes, box, c) :: ChoiceOldest(notes[id := note], box, c)
  {
    var after := notes[id := note];
    if ConsumedFirst(after, box) {
      forall u, v | u in notes && v in notes && box.Holds(notes[u]) && box.Holds(notes[v]) && notes[u].consumed && !notes[v].consumed
        ensures notes[u].createdAt <= notes[v].createdAt
      {
        assert after[u] == notes[u] && after[v] == notes[v];
      }
    }
  }

  lemma TakeKeepsOrder(notes: map<string, Note>, box: Box, p: string)
    requires ConsumedFirst(notes, box) && p in notes && (box.Holds(notes[p]) ==> IsOldest(notes, box.dest, box.topic, Some(p)))
    ensures ConsumedFirst(notes[p := notes[p].(consumed := true)], box)
  {
  }

  // A choice that is the oldest stays it while other messages are taken.
  lemma TakeKeepsChoice(notes: map<string, Note>, box: Box, c: Choice, p: string)
    requires ChoiceOldest(notes, box, c) && p in notes
    ensures ChoiceOldest(notes[p := notes[p].(consumed := true)], box, c)
  {
  }

  // The same choices are open, or some of them.
  predicate FewerChoices(s: State, s': State) {
    forall a | a in s'.chosen :: a in s.chosen && s'.chosen[a] == s.chosen[a] && (a in s'.checked ==> a in s.checked && s'.checked[a] == s.checked[a])
  }

  lemma PostedKeepsOrderly(s: State, s': State, id: string, note: Note, box: Box)
    requires Orderly(s, box) && ArrivesInTime(s, s'.chosen.Keys, id, note, box) && !note.consumed && FewerChoices(s, s')
    requires s'.db.notes == Posted(s.db.notes, id, note)
    ensures Orderly(s', box)
  {
    if id !in s.db.notes && box.Holds(note) {
      PostKeepsOrderExactly(s.db.notes, box, id, note);
    } else if id !in s.db.notes {
      PostElsewhere(s.db.notes, box, id, note);
    }
    forall a | Receives(s', a, box) ensures ChoiceOldest(s'.db.notes, box, s'.chosen[a]) {
      assert Receives(s, a, box);
      if id !in s.db.notes && box.Holds(note) {
        PostKeepsChoiceExactly(s.db.notes, box, s.chosen[a], id, note);
      }
    }
  }

  lemma TakenKeepsOrderly(s: State, s': State, p: string, box: Box)
    requires Orderly(s, box) && FewerChoices(s, s') && p in s.db.notes
    requires box.Holds(s.db.notes[p]) ==> IsOldest(s.db.notes, box.dest, box.topic, Some(p))
    requires s'.db.notes == s.db.notes[p := s.db.notes[p].(consumed := true)]
    ensures Orderly(s', box)
  {
    TakeKeepsOrder(s.db.notes, box, p);
    forall a | Receives(s', a, box) ensures ChoiceOldest(s'.db.notes, box, s'.chosen[a]) {
      assert Receives(s, a, box);
      TakeKeepsChoice(s.db.notes, box, s.chosen[a], p);
    }
  }

  lemma RecvKeepsOrderly(s: State, a: nat, stamp: int, box: Box)
    requires Possible(s, CommitRecv(a, stamp)) && Orderly(s, box) && ChoicesOk(s)
    ensures Orderly(NextState(s, CommitRecv(a, stamp)), box)
  {
    var s', took := NextState(s, CommitRecv(a, stamp)), Taken(s, a);
    if took.Some? && !Conflicts(s.db, s.checked[a], stamp) {
      if box.Holds(s.db.notes[took.value]) {
        assert Receives(s, a, box);
        assert ChoiceOldest(s.db.notes, box, s.chosen[a]);
      }
      TakenKeepsOrderly(s, s', took.value, box);
    } else {
      SameNotesKeep(s, s', box);
    }
  }

  lemma SameNotesKeep(s: State, s': State, box: Box)
    requires Orderly(s, box) && s'.db.notes == s.db.notes && FewerChoices(s, s')
    ensures Orderly(s', box)
  {
    forall a | Receives(s', a, box) ensures ChoiceOldest(s'.db.notes, box, s'.chosen[a]) {
      assert Receives(s, a, box);
    }
  }

  lemma SendKeepsOrderly(s: State, ev: Event, box: Box)
    requires Possible(s, ev) && ev.CommitSend? && InTime(s, ev, box) && Orderly(s, box)
    ensures Orderly(NextState(s, ev), box)
  {
    if Conflicts(s.db, s.checked[ev.a], ev.stamp) {
      SameNotesKeep(s, NextState(s, ev), box);
    } else {
      PostedKeepsOrderly(s, NextState(s, ev), ev.id, ev.note, box);
    }
  }

  lemma ChooseKeepsOrderly(s: State, ev: Event, box: Box)
    requires Possible(s, ev) && ev.Choose? && Orderly(s, box)
    ensures Orderly(NextState(s, ev), box)
  {
    var s' := NextState(s, ev);
    forall a | Receives(s', a, box) ensures ChoiceOldest(s'.db.notes, box, s'.chosen[a]) {
      assert a != ev.a ==> Receives(s, a, box);
    }
  }

  lemma InTimeKeeps(s: State, ev: Event, box: Box)
    requires Possible(s, ev) && InTime(s, ev, box) && Orderly(s, box) && ChoicesOk(s)
    ensures Orderly(NextState(s, ev), box)
  {
    match ev
    case CommitSend(_, _, _, _) => SendKeepsOrderly(s, ev, box);
    case SendDirect(id, note) => PostedKeepsOrderly(s, NextState(s, ev), id, note, box);
    case CommitRecv(a, stamp) => RecvKeepsOrderly(s, a, stamp, box);
    case Choose(_, _, _) => ChooseKeepsOrderly(s, ev, box);
    case _ => SameNotesKeep(s, NextState(s, ev), box);
  }

  lemma {:induction false} OrderlyAlways(s: State, evs: seq<Event>, box: Box)
    requires History(s, evs) && AllInTime(s, evs, box) && Orderly(s, box) && ChoicesOk(s)
    ensures Orderly(Run(s, evs), box)
    decreases |evs|
  {
    if |evs| > 0 {
      InTimeKeeps(s, evs[0], box);
      ChoicesKept(s, evs[0]);
      OrderlyAlways(NextState(s, evs[0]), evs[1..], box);
    }
  }

  // ---------- Main results ----------

  /**
  If no notification arrives in a box older than one that has been consumed there, or that an open recv has picked, then in
  every state the consumed ones of the box are its oldest. Equal stamps are no exception, and other boxes do not matter.
  */
  lemma OldestFirst(evs: seq<Event>, box: Box)
    requires History(Empty, evs) && AllInTime(Empty, evs, box)
    ensures ConsumedFirst(Run(Empty, evs).db.notes, box)
  {
    OrderlyAlways(Empty, evs, box);
  }

  lemma OrderlyMeansInTime(s: State, s': State, id: string, note: Note, box: Box)
    requires Orderly(s, box) && Orderly(s', box) && !note.consumed && s'.db.notes == Posted(s.db.notes, id, note)
    requires FewerChoices(s, s') && forall a | a in s'.chosen :: a in s.checked ==> a in s'.checked
    ensures ArrivesInTime(s, s'.chosen.Keys, id, note, box)
  {
    if id !in s.db.notes && box.Holds(note) {
      PostKeepsOrderExactly(s.db.notes, box, id, note);
      forall a | a in s'.chosen && Receives(s, a, box) ensures AfterPick(s.db.notes, s.chosen[a], note) {
        assert Receives(s', a, box);
        PostKeepsChoiceExactly(s.db.notes, box, s.chosen[a], id, note);
      }
    }
  }

  /** The condition is exact, whatever arrives and however: the order of the box stays exactly if the arrival is in time. */
  lemma ArrivalKeepsOrderExactly(s: State, ev: Event, box: Box)
    requires Orderly(s, box) && ChoicesOk(s) && Possible(s, ev)
    ensures Orderly(NextState(s, ev), box) <==> InTime(s, ev, box)
  {
    var s' := NextState(s, ev);
    if InTime(s, ev, box) {
      InTimeKeeps(s, ev, box);
    } else if Orderly(s', box) {
      OrderlyMeansInTime(s, s', ev.id, ev.note, box);
    }
  }

  /** A message stamped 5 is consumed before one stamped 3 arrives. */
  lemma LateArrivalIsOvertaken() returns (evs: seq<Event>)
    ensures History(Empty, evs) && !ConsumedFirst(Run(Empty, evs).db.notes, Box("d", "t"))
  {
    var k := StepKey("d", 0);
    var b, a := Note("d", "t", None, 5, false), Note("d", "t", None, 3, false);
    var e1, e2, e3, e4, e5 := SendDirect("b", b), Check(0, k), Choose(0, "t", Some("b")), CommitRecv(0, 7), SendDirect("a", a);
    var s1 := NextState(Empty, e1);
    var s2 := NextState(s1, e2);
    var s3 := NextState(s2, e3);
    var s4 := NextState(s3, e4);
    var s5 := NextState(s4, e5);
    assert s4.db.notes["b"].consumed;
    assert s5.db.notes["b"].consumed && s5.db.notes["a"] == a;
    Unfold(s4, e5, []);
    Unfold(s3, e4, [e5] + []);
    Unfold(s2, e3, [e4] + ([e5] + []));
    Unfold(s1, e2, [e3] + ([e4] + ([e5] + [])));
    Unfold(Empty, e1, [e2] + ([e3] + ([e4] + ([e5] + []))));
    evs := [e1] + ([e2] + ([e3] + ([e4] + ([e5] + []))));
  }
}
