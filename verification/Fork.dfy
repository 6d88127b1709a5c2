/**
Forking a workflow at a step: its checkpoints, stream entries and event history before that step are copied, and the
current value of each event is rebuilt from the history.
*/
module Fork {
  import opened Common
  import opened Streams

  datatype Output = Output(outcome: Outcome, name: string, child: Option<string>)

  datatype EventKey = EventKey(functionId: nat, key: string)

  datatype Place = Place(key: string, offset: nat)

  // What one workflow has stored.
  datatype Data = Data(
    outputs: map<nat, Output>,
    events: map<string, string>,
    history: map<EventKey, string>,
    streams: map<Place, Entry>)

  const Nothing := Data(map[], map[], map[], map[])

  // ---------- Commits ----------

  // The commits of a workflow that the tables remember.
  datatype Write =
    | Step(functionId: nat, output: Output)
    | SetEvent(functionId: nat, output: Output, key: string, value: string)
    | StreamFromStep(functionId: nat, key: string, value: string)
    | StreamFromWorkflow(functionId: nat, output: Output, key: string, value: string)

  function Record(outputs: map<nat, Output>, f: nat, o: Output): map<nat, Output> {
    if f in outputs then outputs else outputs[f := o]
  }

  function Offsets(streams: map<Place, Entry>, key: string): set<nat> {
    set p | p in streams && p.key == key :: p.offset
  }

  // MAX(offset) + 1 as a function.
  ghost function Next(offsets: set<nat>): (n: nat)
    ensures IsNextOffset(offsets, n)
  {
    NextExists(offsets);
    var n: nat :| IsNextOffset(offsets, n);
    n
  }

  lemma {:induction false} NextExists(offsets: set<nat>)
    ensures exists n: nat :: IsNextOffset(offsets, n)
    decreases offsets
  {
    if offsets == {} {
      assert IsNextOffset(offsets, 0);
    } else {
      var o :| o in offsets;
      NextExists(offsets - {o});
      var n: nat :| IsNextOffset(offsets - {o}, n);
      assert offsets == offsets - {o} + {o};
      assert IsNextOffset(offsets, if o < n then n else o + 1);
    }
  }

  ghost function Append(streams: map<Place, Entry>, key: string, value: string, f: nat): map<Place, Entry> {
    streams[Place(key, Next(Offsets(streams, key))) := Entry(value, f)]
  }

  // One commit. A step that is recorded already is replayed and writes nothing.
  ghost function Apply(d: Data, w: Write): Data {
    match w
    case StreamFromStep(f, key, value) => d.(streams := Append(d.streams, key, value, f))
    case Step(f, o) => d.(outputs := Record(d.outputs, f, o))
    case SetEvent(f, o, key, value) =>
      if f in d.outputs then d
      else d.(outputs := Record(d.outputs, f, o), events := d.events[key := value], history := d.history[EventKey(f, key) := value])
    case StreamFromWorkflow(f, o, key, value) =>
      if f in d.outputs then d
      else d.(outputs := Record(d.outputs, f, o), streams := Append(d.streams, key, value, f))
  }

  // What is stored after the first n commits.
  ghost function After(ws: seq<Write>, n: nat): Data
    requires n <= |ws|
  {
    if n == 0 then Nothing else Apply(After(ws, n - 1), ws[n - 1])
  }

  // All steps before s have committed when step s or a later one commits; among themselves they may commit in any order.
  predicate EarlierFirst(ws: seq<Write>, s: nat) {
    forall i, j | 0 <= i < j < |ws| :: s <= ws[i].functionId ==> s <= ws[j].functionId
  }

  // The settings of each event before step s commit in function-ID order.
  predicate EventsInOrder(ws: seq<Write>, s: nat) {
    forall i, j | 0 <= i < j < |ws| && ws[i].SetEvent? && ws[j].SetEvent? && ws[i].key == ws[j].key && ws[j].functionId < s ::
      ws[i].functionId <= ws[j].functionId
  }

  // The number of commits made when step s began: the next one, if any, belongs to step s or later.
  function StartOf(ws: seq<Write>, s: nat): (k: nat)
    ensures k <= |ws| && (forall i | 0 <= i < k :: ws[i].functionId < s) && (k < |ws| ==> s <= ws[k].functionId)
  {
    CommitsBelow(ws, 0, s)
  }

  function CommitsBelow(ws: seq<Write>, i: nat, s: nat): (k: nat)
    requires i <= |ws|
    ensures i <= k <= |ws| && (forall j | i <= j < k :: ws[j].functionId < s) && (k < |ws| ==> s <= ws[k].functionId)
    decreases |ws| - i
  {
    if i == |ws| || ws[i].functionId >= s then i else CommitsBelow(ws, i + 1, s)
  }

  // ---------- The fork ----------

  // The latest entry of an event before step s.
  function Latest(history: map<EventKey, string>, s: nat, key: string): Option<nat> {
    if s == 0 then None
    else if EventKey(s - 1, key) in history then Some(s - 1)
    else Latest(history, s - 1, key)
  }

  function KeysBefore(history: map<EventKey, string>, s: nat): set<string> {
    set e | e in history && e.functionId < s :: e.key
  }

  lemma {:induction false} LatestIsLast(history: map<EventKey, string>, s: nat, key: string)
    ensures Latest(history, s, key).None? <==> key !in KeysBefore(history, s)
    ensures Latest(history, s, key).Some? ==>
              var f := Latest(history, s, key).value;
              && f < s && EventKey(f, key) in history
              && forall g | f < g < s :: EventKey(g, key) !in history
  {
    if s > 0 && EventKey(s - 1, key) !in history {
      LatestIsLast(history, s - 1, key);
      assert key in KeysBefore(history, s) <==> key in KeysBefore(history, s - 1);
    } else if s > 0 {
      assert EventKey(s - 1, key).key in KeysBefore(history, s);
    }
  }

  function ForkEvents(history: map<EventKey, string>, s: nat): map<string, string> {
    map key | key in KeysBefore(history, s) :: (
      LatestIsLast(history, s, key);
      history[EventKey(Latest(history, s, key).value, key)])
  }

  function Replaced(o: Output, replacements: map<string, string>): Output {
    if o.child.Some? && o.child.value in replacements then o.(child := Some(replacements[o.child.value])) else o
  }

  function OutputsBefore(outputs: map<nat, Output>, s: nat, replacements: map<string, string>): map<nat, Output> {
    map f | f in outputs && f < s :: Replaced(outputs[f], replacements)
  }

  function HistoryBefore(history: map<EventKey, string>, s: nat): map<EventKey, string> {
    map e | e in history && e.functionId < s :: history[e]
  }

  function EntriesBefore(streams: map<Place, Entry>, s: nat): map<Place, Entry> {
    map p | p in streams && streams[p].functionId < s :: streams[p]
  }

  function ForkAt(d: Data, s: nat, replacements: map<string, string>): Data {
    Data(OutputsBefore(d.outputs, s, replacements), ForkEvents(d.history, s), HistoryBefore(d.history, s), EntriesBefore(d.streams, s))
  }

  // The same data with children replaced.
  function WithChildren(d: Data, replacements: map<string, string>): Data {
    d.(outputs := map f | f in d.outputs :: Replaced(d.outputs[f], replacements))
  }

  // ---------- Fidelity ----------

  // Nothing stored belongs to step s or later.
  predicate Below(d: Data, s: nat) {
    && (forall f | f in d.outputs :: f < s)
    && (forall e | e in d.history :: e.functionId < s)
    && (forall p | p in d.streams :: d.streams[p].functionId < s)
  }

  lemma {:induction false} AfterBelow(ws: seq<Write>, n: nat, s: nat)
    requires n <= |ws| && forall i | 0 <= i < n :: ws[i].functionId < s
    ensures Below(After(ws, n), s)
  {
    if n > 0 {
      AfterBelow(ws, n - 1, s);
      ApplyBelow(After(ws, n - 1), ws[n - 1], s);
    }
  }

  lemma ApplyBelow(d: Data, w: Write, s: nat)
    requires Below(d, s) && w.functionId < s
    ensures Below(Apply(d, w), s)
  {
  }

  lemma {:induction false} LatestElsewhere(history: map<EventKey, string>, e: EventKey, v: string, s: nat, key: string)
    requires e.key != key || s <= e.functionId
    ensures Latest(history[e := v], s, key) == Latest(history, s, key)
  {
    if s > 0 {
      LatestElsewhere(history, e, v, s - 1, key);
    }
  }

  lemma {:induction false} LatestHere(history: map<EventKey, string>, e: EventKey, v: string, s: nat)
    requires e.functionId < s && forall g | g in history && g.key == e.key :: g.functionId <= e.functionId
    ensures Latest(history[e := v], s, e.key) == Some(e.functionId)
  {
    if e.functionId < s - 1 {
      LatestHere(history, e, v, s - 1);
    }
  }

  // An entry at or after the fork's step does not show.
  lemma LaterEventHidden(history: map<EventKey, string>, e: EventKey, v: string, s: nat)
    requires s <= e.functionId
    ensures ForkEvents(history[e := v], s) == ForkEvents(history, s)
  {
    assert KeysBefore(history[e := v], s) == KeysBefore(history, s);
    forall key | key in KeysBefore(history, s) ensures ForkEvents(history[e := v], s)[key] == ForkEvents(history, s)[key] {
      LatestElsewhere(history, e, v, s, key);
      LatestIsLast(history, s, key);
    }
  }

  // An entry after all others is what its event shows.
  lemma LastEventShows(history: map<EventKey, string>, e: EventKey, v: string, s: nat)
    requires e.functionId < s && forall g | g in history && g.key == e.key :: g.functionId <= e.functionId
    ensures ForkEvents(history[e := v], s) == ForkEvents(history, s)[e.key := v]
  {
    assert e in history[e := v];
    assert KeysBefore(history[e := v], s) == KeysBefore(history, s) + {e.key};
    var history' := history[e := v];
    forall key | key in KeysBefore(history', s) ensures ForkEvents(history', s)[key] == ForkEvents(history, s)[e.key := v][key] {
      if key == e.key {
        LatestHere(history, e, v, s);
      } else {
        LatestElsewhere(history, e, v, s, key);
        LatestIsLast(history, s, key);
      }
    }
  }

  // The current value of each event is its latest one.
  predicate EventsLatest(d: Data, s: nat) {
    ForkEvents(d.history, s) == d.events
  }

  lemma NothingLatest(s: nat)
    ensures EventsLatest(Nothing, s)
  {
    assert KeysBefore(Nothing.history, s) == {};
  }

  lemma ApplyLatest(d: Data, w: Write, s: nat)
    requires EventsLatest(d, s) && w.functionId < s
    requires w.SetEvent? ==> forall g | g in d.history && g.key == w.key :: g.functionId <= w.functionId
    ensures EventsLatest(Apply(d, w), s)
  {
    if w.SetEvent? {
      LastEventShows(d.history, EventKey(w.functionId, w.key), w.value, s);
    }
  }

  lemma {:induction false} HistoryFrom(ws: seq<Write>, n: nat, e: EventKey) returns (i: nat)
    requires n <= |ws| && e in After(ws, n).history
    ensures i < n && ws[i].SetEvent? && ws[i].functionId == e.functionId && ws[i].key == e.key
  {
    if e in After(ws, n - 1).history {
      i := HistoryFrom(ws, n - 1, e);
    } else {
      i := n - 1;
    }
  }

  lemma NextLatest(ws: seq<Write>, n: nat, s: nat)
    requires EventsInOrder(ws, s) && n < |ws| && ws[n].functionId < s && EventsLatest(After(ws, n), s)
    ensures EventsLatest(After(ws, n + 1), s)
  {
    if ws[n].SetEvent? {
      forall g | g in After(ws, n).history && g.key == ws[n].key ensures g.functionId <= ws[n].functionId {
        var i := HistoryFrom(ws, n, g);
      }
    }
    ApplyLatest(After(ws, n), ws[n], s);
  }

  lemma EventsAreLatest(ws: seq<Write>, n: nat, s: nat)
    requires EventsInOrder(ws, s) && n <= |ws| && forall i | 0 <= i < n :: ws[i].functionId < s
    ensures EventsLatest(After(ws, n), s)
  {
    NothingLatest(s);
    for i := 0 to n
      invariant EventsLatest(After(ws, i), s)
    {
      NextLatest(ws, i, s);
    }
  }

  lemma ForkOfBelow(d: Data, s: nat, r: map<string, string>)
    requires Below(d, s) && EventsLatest(d, s)
    ensures ForkAt(d, s, r) == WithChildren(d, r)
  {
    assert OutputsBefore(d.outputs, s, r) == WithChildren(d, r).outputs;
    assert HistoryBefore(d.history, s) == d.history;
    assert EntriesBefore(d.streams, s) == d.streams;
  }

  lemma LaterOutputHidden(outputs: map<nat, Output>, f: nat, o: Output, s: nat, r: map<string, string>)
    requires s <= f
    ensures OutputsBefore(Record(outputs, f, o), s, r) == OutputsBefore(outputs, s, r)
  {
  }

  lemma LaterHistoryHidden(history: map<EventKey, string>, e: EventKey, v: string, s: nat)
    requires s <= e.functionId
    ensures HistoryBefore(history[e := v], s) == HistoryBefore(history, s)
  {
  }

  lemma LaterEntryHidden(streams: map<Place, Entry>, key: string, value: string, f: nat, s: nat)
    requires s <= f
    ensures EntriesBefore(Append(streams, key, value, f), s) == EntriesBefore(streams, s)
  {
    var p := Place(key, Next(Offsets(streams, key)));
    assert p in streams ==> p.offset in Offsets(streams, key);
  }

  lemma LaterWriteHidden(d: Data, w: Write, s: nat, r: map<string, string>)
    requires s <= w.functionId
    ensures ForkAt(Apply(d, w), s, r) == ForkAt(d, s, r)
  {
    match w
    case Step(f, o) => LaterOutputHidden(d.outputs, f, o, s, r);
    case StreamFromStep(f, key, value) => LaterEntryHidden(d.streams, key, value, f, s);
    case SetEvent(f, o, key, value) =>
      LaterOutputHidden(d.outputs, f, o, s, r);
      LaterHistoryHidden(d.history, EventKey(f, key), value, s);
      LaterEventHidden(d.history, EventKey(f, key), value, s);
    case StreamFromWorkflow(f, o, key, value) =>
      LaterOutputHidden(d.outputs, f, o, s, r);
      LaterEntryHidden(d.streams, key, value, f, s);
  }

  ghost predicate SameFork(a: Data, b: Data, s: nat, r: map<string, string>) {
    ForkAt(a, s, r) == ForkAt(b, s, r)
  }

  lemma LaterCommitHidden(ws: seq<Write>, k: nat, n: nat, s: nat, r: map<string, string>)
    requires k <= n < |ws| && s <= ws[n].functionId && SameFork(After(ws, n), After(ws, k), s, r)
    ensures SameFork(After(ws, n + 1), After(ws, k), s, r)
  {
    LaterWriteHidden(After(ws, n), ws[n], s, r);
  }

  lemma NoCommitHidden(ws: seq<Write>, n: nat, s: nat, r: map<string, string>)
    requires n <= |ws|
    ensures SameFork(After(ws, n), After(ws, n), s, r)
  {
  }

  lemma {:induction false} LaterCommitsHidden(ws: seq<Write>, k: nat, n: nat, s: nat, r: map<string, string>)
    requires k <= n <= |ws| && forall i | k <= i < n :: s <= ws[i].functionId
    ensures SameFork(After(ws, n), After(ws, k), s, r)
    decreases n
  {
    if k == n {
      NoCommitHidden(ws, n, s, r);
    } else {
      LaterCommitsHidden(ws, k, n - 1, s, r);
      LaterCommitHidden(ws, k, n - 1, s, r);
    }
  }

  lemma LaterCommits(ws: seq<Write>, n: nat, s: nat)
    requires EarlierFirst(ws, s) && StartOf(ws, s) <= n <= |ws|
    ensures forall i | StartOf(ws, s) <= i < n :: s <= ws[i].functionId
  {
    var k := StartOf(ws, s);
    assert k < |ws| ==> s <= ws[k].functionId;
  }

  // What the original commits after step s has begun does not show in the fork.
  lemma OnlyStartShows(ws: seq<Write>, n: nat, s: nat, r: map<string, string>)
    requires EarlierFirst(ws, s) && StartOf(ws, s) <= n <= |ws|
    ensures SameFork(After(ws, n), After(ws, StartOf(ws, s)), s, r)
  {
    LaterCommits(ws, n, s);
    LaterCommitsHidden(ws, StartOf(ws, s), n, s, r);
  }

  lemma StartBelow(ws: seq<Write>, s: nat)
    ensures Below(After(ws, StartOf(ws, s)), s)
  {
    AfterBelow(ws, StartOf(ws, s), s);
  }

  /**
  If the steps before s have committed when step s begins, and each event was set in order, a fork at step s has exactly the
  checkpoints, event values, event history and streams that the original had when step s began, with the given children
  replaced; however much the original has committed since.
  */
  lemma ForkFidelity(ws: seq<Write>, n: nat, s: nat, r: map<string, string>)
    requires EarlierFirst(ws, s) && EventsInOrder(ws, s) && StartOf(ws, s) <= n <= |ws|
    ensures ForkAt(After(ws, n), s, r) == WithChildren(After(ws, StartOf(ws, s)), r)
  {
    OnlyStartShows(ws, n, s, r);
    StartBelow(ws, s);
    EventsAreLatest(ws, StartOf(ws, s), s);
    ForkOfBelow(After(ws, StartOf(ws, s)), s, r);
  }

  /** A body replayed on the fork finds every step before s that the original had recorded, with its result. */
  lemma CopiedStepsAreReplayed(ws: seq<Write>, n: nat, s: nat, r: map<string, string>, f: nat)
    requires EarlierFirst(ws, s) && StartOf(ws, s) <= n <= |ws| && f < s
    ensures var original, fork, start := After(ws, n).outputs, ForkAt(After(ws, n), s, r).outputs, After(ws, StartOf(ws, s)).outputs;
            && (f in fork <==> f in original) && (f in start <==> f in original)
            && (f in original ==> start[f] == original[f] && fork[f] == Replaced(original[f], r))
  {
    OnlyStartShows(ws, n, s, map[]);
    StartBelow(ws, s);
    CopiedStep(After(ws, n).outputs, After(ws, StartOf(ws, s)).outputs, s, r, f);
  }

  lemma CopiedStep(a: map<nat, Output>, b: map<nat, Output>, s: nat, r: map<string, string>, f: nat)
    requires OutputsBefore(a, s, map[]) == OutputsBefore(b, s, map[]) && f < s
    ensures (f in OutputsBefore(a, s, r) <==> f in a) && (f in b <==> f in a)
    ensures f in a ==> b[f] == a[f] && OutputsBefore(a, s, r)[f] == Replaced(a[f], r)
  {
    assert f in OutputsBefore(a, s, map[]) <==> f in OutputsBefore(b, s, map[]);
    assert f in a ==> OutputsBefore(a, s, map[])[f] == a[f];
    assert f in b ==> OutputsBefore(b, s, map[])[f] == b[f];
  }

  // ---------- Streams of a fork ----------

  predicate Dense(streams: map<Place, Entry>, key: string) {
    forall p, q: nat | p in streams && p.key == key && q < p.offset :: Place(key, q) in streams
  }

  lemma AppendDense(streams: map<Place, Entry>, key: string, value: string, f: nat, k: string)
    requires Dense(streams, k)
    ensures Dense(Append(streams, key, value, f), k)
  {
    var n := Next(Offsets(streams, key));
    if k == key && n > 0 {
      assert n - 1 in Offsets(streams, key);
      assert Place(key, n - 1) in streams;
    }
  }

  lemma {:induction false} AfterDense(ws: seq<Write>, n: nat, key: string)
    requires n <= |ws|
    ensures Dense(After(ws, n).streams, key)
  {
    if n > 0 {
      var w := ws[n - 1];
      AfterDense(ws, n - 1, key);
      if w.StreamFromStep? || w.StreamFromWorkflow? {
        AppendDense(After(ws, n - 1).streams, w.key, w.value, w.functionId, key);
      }
    }
  }

  /** If the steps before s have committed when step s begins, the fork's streams have no gaps. */
  lemma ForkStreamsDense(ws: seq<Write>, n: nat, s: nat, r: map<string, string>, key: string)
    requires EarlierFirst(ws, s) && StartOf(ws, s) <= n <= |ws|
    ensures Dense(ForkAt(After(ws, n), s, r).streams, key)
  {
    OnlyStartShows(ws, n, s, r);
    StartBelow(ws, s);
    AfterDense(ws, StartOf(ws, s), key);
    var streams := After(ws, StartOf(ws, s)).streams;
    assert EntriesBefore(streams, s) == streams;
  }

  // No entry of a copied step comes after an entry of a step that is not copied.
  predicate CopiedFirst(streams: map<Place, Entry>, s: nat, key: string) {
    forall p, q | p in streams && q in streams && p.key == key && q.key == key && p.offset < q.offset ::
      streams[q].functionId < s ==> streams[p].functionId < s
  }

  lemma DenseMeansFirst(streams: map<Place, Entry>, s: nat, key: string)
    requires Dense(EntriesBefore(streams, s), key)
    ensures CopiedFirst(streams, s, key)
  {
    forall p, q | p in streams && q in streams && p.key == key && q.key == key && p.offset < q.offset && streams[q].functionId < s
      ensures streams[p].functionId < s
    {
      assert q in EntriesBefore(streams, s);
      assert Place(key, p.offset) in EntriesBefore(streams, s);
      assert p == Place(key, p.offset);
    }
  }

  lemma FirstMeansDense(streams: map<Place, Entry>, s: nat, key: string)
    requires Dense(streams, key) && CopiedFirst(streams, s, key)
    ensures Dense(EntriesBefore(streams, s), key)
  {
    forall p, q: nat | p in EntriesBefore(streams, s) && p.key == key && q < p.offset ensures Place(key, q) in EntriesBefore(streams, s) {
      assert Place(key, q) in streams;
    }
  }

  /** Whatever the commit order, a stream of the fork is free of gaps exactly when its copied entries come first. */
  lemma ForkStreamsDenseExactly(d: Data, s: nat, r: map<string, string>, key: string)
    requires Dense(d.streams, key)
    ensures Dense(ForkAt(d, s, r).streams, key) <==> CopiedFirst(d.streams, s, key)
  {
    if Dense(EntriesBefore(d.streams, s), key) {
      DenseMeansFirst(d.streams, s, key);
    }
    if CopiedFirst(d.streams, s, key) {
      FirstMeansDense(d.streams, s, key);
    }
  }

  lemma NextAt(offsets: set<nat>, n: nat)
    requires forall o: nat :: o in offsets <==> o < n
    ensures Next(offsets) == n
  {
    NextOffsetUnique(offsets, Next(offsets), n);
  }

  /** Parallel steps that commit out of order: the fork's stream starts at offset 1. */
  lemma OutOfOrderForkHasGap(ws: seq<Write>)
    requires ws == [StreamFromStep(2, "k", "b"), StreamFromStep(1, "k", "a")]
    ensures !Dense(ForkAt(After(ws, 2), 2, map[]).streams, "k")
  {
    var t0, t1 := After(ws, 0).streams, After(ws, 1).streams;
    NextAt(Offsets(t0, "k"), 0);
    assert t1 == map[Place("k", 0) := Entry("b", 2)];
    assert Place("k", 0).offset in Offsets(t1, "k");
    NextAt(Offsets(t1, "k"), 1);
    assert After(ws, 2).streams == t1[Place("k", 1) := Entry("a", 1)];
    var copied := ForkAt(After(ws, 2), 2, map[]).streams;
    assert Place("k", 1) in copied && Place("k", 0) !in copied;
  }

  // ---------- Bulk forks ----------

  // One statement forks several workflows; its window over the event history is partitioned by original and event.
  datatype Mapping = Mapping(orig: string, fork: string, start: nat)

  datatype Partition = Partition(orig: string, key: string)

  type Histories = map<string, map<EventKey, string>>

  predicate Known(hs: Histories, ms: seq<Mapping>) {
    forall i | 0 <= i < |ms| :: ms[i].orig in hs
  }

  function Candidates(hs: Histories, m: Mapping): set<string>
    requires m.orig in hs
  {
    KeysBefore(hs[m.orig], m.start)
  }

  // The fork that gets the row ranked first in a partition: one with the highest function ID.
  predicate IsWinner(hs: Histories, ms: seq<Mapping>, key: string, i: nat, w: nat)
    requires Known(hs, ms) && i < |ms|
  {
    && w < |ms| && ms[w].orig == ms[i].orig && key in Candidates(hs, ms[w])
    && forall j | 0 <= j < |ms| && ms[j].orig == ms[i].orig && key in Candidates(hs, ms[j]) ::
         RankOf(hs, ms[j], key) <= RankOf(hs, ms[w], key)
  }

  function RankOf(hs: Histories, m: Mapping, key: string): nat
    requires m.orig in hs && key in Candidates(hs, m)
  {
    LatestIsLast(hs[m.orig], m.start, key);
    Latest(hs[m.orig], m.start, key).value
  }

  predicate Ranked(hs: Histories, ms: seq<Mapping>, win: map<Partition, nat>)
    requires Known(hs, ms)
  {
    forall i, key | 0 <= i < |ms| && key in Candidates(hs, ms[i]) ::
      Partition(ms[i].orig, key) in win && IsWinner(hs, ms, key, i, win[Partition(ms[i].orig, key)])
  }

  // The events that the bulk statement inserts for fork i.
  function BulkEvents(hs: Histories, ms: seq<Mapping>, win: map<Partition, nat>, i: nat): map<string, string>
    requires Known(hs, ms) && Ranked(hs, ms, win) && i < |ms|
  {
    map key | key in Candidates(hs, ms[i]) && win[Partition(ms[i].orig, key)] == i :: ForkEvents(hs[ms[i].orig], ms[i].start)[key]
  }

  predicate Apart(hs: Histories, ms: seq<Mapping>)
    requires Known(hs, ms)
  {
    forall i, j | 0 <= i < j < |ms| && ms[i].orig == ms[j].orig :: Candidates(hs, ms[i]) !! Candidates(hs, ms[j])
  }

  predicate BulkFaithful(hs: Histories, ms: seq<Mapping>, win: map<Partition, nat>)
    requires Known(hs, ms) && Ranked(hs, ms, win)
  {
    forall i | 0 <= i < |ms| :: BulkEvents(hs, ms, win, i) == ForkEvents(hs[ms[i].orig], ms[i].start)
  }

  lemma SharedKeyIsLost(hs: Histories, ms: seq<Mapping>, win: map<Partition, nat>, i: nat, j: nat, key: string)
    requires Known(hs, ms) && Ranked(hs, ms, win) && i < j < |ms| && ms[i].orig == ms[j].orig
    requires key in Candidates(hs, ms[i]) && key in Candidates(hs, ms[j])
    ensures !BulkFaithful(hs, ms, win)
  {
    var loser := if win[Partition(ms[i].orig, key)] == i then j else i;
    assert key !in BulkEvents(hs, ms, win, loser);
    assert key in ForkEvents(hs[ms[loser].orig], ms[loser].start);
  }

  lemma ApartIsFaithful(hs: Histories, ms: seq<Mapping>, win: map<Partition, nat>, i: nat)
    requires Known(hs, ms) && Ranked(hs, ms, win) && Apart(hs, ms) && i < |ms|
    ensures BulkEvents(hs, ms, win, i) == ForkEvents(hs[ms[i].orig], ms[i].start)
  {
    forall key | key in Candidates(hs, ms[i]) ensures win[Partition(ms[i].orig, key)] == i {
      var w := win[Partition(ms[i].orig, key)];
      assert IsWinner(hs, ms, key, i, w);
    }
  }

  /**
  Every fork of a bulk gets its events exactly when no two forks of one original both have an entry of the same event
  before their steps: the window ranks the rows of all forks of an original together. Distinct originals suffice.
  */
  lemma BulkForkFaithfulExactly(hs: Histories, ms: seq<Mapping>, win: map<Partition, nat>)
    requires Known(hs, ms) && Ranked(hs, ms, win)
    ensures BulkFaithful(hs, ms, win) <==> Apart(hs, ms)
    ensures (forall i, j | 0 <= i < j < |ms| :: ms[i].orig != ms[j].orig) ==> BulkFaithful(hs, ms, win)
  {
    if !Apart(hs, ms) {
      var i, j :| 0 <= i < j < |ms| && ms[i].orig == ms[j].orig && !(Candidates(hs, ms[i]) !! Candidates(hs, ms[j]));
      var key :| key in Candidates(hs, ms[i]) && key in Candidates(hs, ms[j]);
      SharedKeyIsLost(hs, ms, win, i, j, key);
    } else {
      forall i | 0 <= i < |ms| ensures BulkEvents(hs, ms, win, i) == ForkEvents(hs[ms[i].orig], ms[i].start) {
        ApartIsFaithful(hs, ms, win, i);
      }
    }
  }

  /** Two forks of one workflow in one call: whichever row the window ranks first, one of them has no event. */
  lemma RepeatedOriginalLosesEvents(hs: Histories, ms: seq<Mapping>, win: map<Partition, nat>)
    requires hs == map["w" := map[EventKey(0, "k") := "v"]] && ms == [Mapping("w", "a", 1), Mapping("w", "b", 1)]
    requires Ranked(hs, ms, win)
    ensures BulkEvents(hs, ms, win, 0) == map[] || BulkEvents(hs, ms, win, 1) == map[]
  {
    assert Candidates(hs, ms[0]) <= {"k"} && Candidates(hs, ms[1]) <= {"k"};
  }
}
