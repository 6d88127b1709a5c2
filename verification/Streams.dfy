/**
Streams: any number of concurrent writers append to one (workflow, key), and readers follow it.

A writer reads MAX(offset) and later inserts at the next offset; the primary key on (workflow, key, offset) makes its
transaction fail if somebody else has taken that offset in between.
*/
module Streams {
  import opened Common

  datatype Entry = Entry(value: string, functionId: nat)

  const SENTINEL := "__DBOS_STREAM_CLOSED__"

  // ---------- Writers ----------

  // MAX(offset) + 1, or 0.
  predicate IsNextOffset(offsets: set<nat>, n: nat) {
    (forall o | o in offsets :: o < n) && (n > 0 ==> n - 1 in offsets)
  }

  lemma NextOffsetUnique(offsets: set<nat>, m: nat, n: nat)
    requires IsNextOffset(offsets, m) && IsNextOffset(offsets, n)
    ensures m == n
  {
  }

  method NextOffset(offsets: set<nat>) returns (n: nat)
    ensures IsNextOffset(offsets, n)
  {
    n := 0;
    var left := offsets;
    while left != {}
      invariant left <= offsets
      invariant IsNextOffset(offsets - left, n)
    {
      var o :| o in left;
      assert offsets - (left - {o}) == offsets - left + {o};
      n := if o < n then n else o + 1;
      left := left - {o};
    }
    assert offsets - left == offsets;
  }

  // `log` lists the entries in commit order.
  datatype Stream = Stream(entries: map<nat, Entry>, writers: map<nat, nat>, log: seq<Entry>)

  datatype Event =
    | ReadMax(w: nat, next: nat)
    | Insert(w: nat, entry: Entry)     // and commit; acknowledged or not
    | Drop(w: nat)

  predicate Possible(s: Stream, ev: Event) {
    match ev
    case ReadMax(w, next) => w !in s.writers && IsNextOffset(s.entries.Keys, next)
    case Insert(w, _) => w in s.writers
    case Drop(w) => w in s.writers
  }

  function NextStream(s: Stream, ev: Event): Stream
    requires Possible(s, ev)
  {
    match ev
    case ReadMax(w, next) => s.(writers := s.writers[w := next])
    case Insert(w, e) =>
      var offset := s.writers[w];
      var s1 := s.(writers := s.writers - {w});
      if offset in s.entries then s1 else s1.(entries := s.entries[offset := e], log := s.log + [e])
    case Drop(w) => s.(writers := s.writers - {w})
  }

  predicate History(s: Stream, evs: seq<Event>)
    decreases |evs|
  {
    |evs| == 0 || (Possible(s, evs[0]) && History(NextStream(s, evs[0]), evs[1..]))
  }

  function Run(s: Stream, evs: seq<Event>): Stream
    requires History(s, evs)
    decreases |evs|
  {
    if |evs| == 0 then s else Run(NextStream(s, evs[0]), evs[1..])
  }

  // Offsets 0 .. n-1, in commit order; no writer aims beyond the end.
  predicate Ok(s: Stream) {
    && (forall o: nat | o < |s.log| :: o in s.entries && s.entries[o] == s.log[o])
    && (forall o | o in s.entries :: o < |s.log|)
    && (forall w | w in s.writers :: s.writers[w] <= |s.log|)
  }

  lemma EventKeeps(s: Stream, ev: Event)
    requires Ok(s) && Possible(s, ev)
    ensures Ok(NextStream(s, ev)) && s.log <= NextStream(s, ev).log
  {
    match ev
    case ReadMax(_, _) => assert IsNextOffset(s.entries.Keys, |s.log|);
    case _ =>
  }

  /** Over every interleaving of writers the offsets are exactly 0 .. n-1 in commit order, and what is written stays. */
  lemma {:induction false} DenseInCommitOrder(s: Stream, evs: seq<Event>)
    requires Ok(s) && History(s, evs)
    ensures var e := Run(s, evs);
            && s.log <= e.log
            && (forall o: nat :: o in e.entries <==> o < |e.log|)
            && (forall o: nat | o < |e.log| :: e.entries[o] == e.log[o])
    decreases |evs|
  {
    if |evs| > 0 {
      EventKeeps(s, evs[0]);
      DenseInCommitOrder(NextStream(s, evs[0]), evs[1..]);
    }
  }

  // ---------- Readers ----------

  datatype Status = Active | Ended

  // What one read sees: the workflow's status (None: no such workflow) and the stream.
  datatype Snapshot = Snapshot(status: Option<Status>, stream: seq<string>)

  // Streams only grow, as proved above.
  predicate Growing(obs: seq<Snapshot>) {
    forall i, j | 0 <= i < j < |obs| :: obs[i].stream <= obs[j].stream
  }

  // The values before the first close sentinel.
  function Cut(stream: seq<string>): seq<string> {
    if |stream| == 0 || stream[0] == SENTINEL then [] else [stream[0]] + Cut(stream[1..])
  }

  predicate NoSentinel(stream: seq<string>) {
    forall i | 0 <= i < |stream| :: stream[i] != SENTINEL
  }

  lemma {:induction false} CutOf(before: seq<string>, rest: seq<string>)
    requires NoSentinel(before)
    ensures Cut(before + rest) == before + Cut(rest)
  {
    if |before| == 0 {
      assert before + rest == rest;
    } else {
      CutOf(before[1..], rest);
      assert (before + rest)[1..] == before[1..] + rest;
      assert before == [before[0]] + before[1..];
    }
  }

  lemma CutExtends(before: seq<string>, rest: seq<string>, all: seq<string>)
    requires NoSentinel(before) && before <= all && rest == all[|before|..]
    ensures |Cut(all)| == |before| + |Cut(rest)| && before <= Cut(all)
  {
    assert all == before + rest;
    CutOf(before, rest);
  }

  datatype Ending = Closed | Drained | Missing | StillWaiting

  // How a reader that has used some of the reads and yielded `out` has ended.
  predicate EndsWell(obs: seq<Snapshot>, used: nat, out: seq<string>, ending: Ending)
    requires used <= |obs|
  {
    match ending
    case StillWaiting => used == |obs|
    case Closed => used > 0 && out + [SENTINEL] <= obs[used - 1].stream
    case Drained => used > 1 && out == obs[used - 1].stream && exists i :: 0 <= i < used - 1 && obs[i].status == Some(Ended)
    case Missing => used > 0 && obs[used - 1].status.None?
  }

  /** The reading loop. What it yields is at every time a prefix of the stream cut at the first close sentinel. */
  method ReadStream(obs: seq<Snapshot>) returns (out: seq<string>, ending: Ending, used: nat)
    requires Growing(obs)
    ensures used <= |obs| && NoSentinel(out) && EndsWell(obs, used, out, ending)
    ensures used > 0 && !ending.Missing? ==> out <= Cut(obs[used - 1].stream)
  {
    out, used := [], 0;
    var offset, finalRead := 0, false;
    while used < |obs|
      invariant used <= |obs| && offset == |out| && NoSentinel(out)
      invariant used > 0 ==> out <= obs[used - 1].stream && out <= Cut(obs[used - 1].stream)
      invariant used == 0 ==> out == []
      invariant finalRead ==> exists i :: 0 <= i < used && obs[i].status == Some(Ended)
    {
      var snap := obs[used];
      used := used + 1;
      if snap.status.None? {
        return out, Missing, used;
      }
      assert out <= snap.stream;
      assert snap.stream == out + snap.stream[offset..];
      CutOf(out, snap.stream[offset..]);
      if offset < |snap.stream| {
        if snap.stream[offset] == SENTINEL {
          return out, Closed, used;
        }
        out := out + [snap.stream[offset]];
        offset := offset + 1;
        continue;
      }
      if finalRead {
        return out, Drained, used;
      }
      if snap.status.value.Ended? {
        finalRead := true;
      }
    }
    ending := StillWaiting;
  }

  /** A reader that stops at a sentinel has yielded the whole stream, whatever is written afterwards. */
  lemma ClosedReaderHasAll(obs: seq<Snapshot>, used: nat, out: seq<string>, final: seq<string>)
    requires used <= |obs| && NoSentinel(out) && EndsWell(obs, used, out, Closed) && obs[used - 1].stream <= final
    ensures out == Cut(final)
  {
    var n := |out|;
    assert final[n] == SENTINEL;
    assert final == out + final[n..];
    CutOf(out, final[n..]);
  }

  /**
  A reader that stops because the workflow has ended has yielded the whole stream if the last write came before its
  last read; in particular if nothing is written after the status changes.
  */
  lemma DrainedReaderHasAll(obs: seq<Snapshot>, used: nat, out: seq<string>, final: seq<string>)
    requires used <= |obs| && NoSentinel(out) && EndsWell(obs, used, out, Drained) && Growing(obs)
    requires obs[used - 1].stream == final || forall i | 0 <= i < used && obs[i].status == Some(Ended) :: obs[i].stream == final
    requires obs[used - 1].stream <= final
    ensures out == Cut(final)
  {
    assert out == final;
    CutOf(out, []);
    assert out + [] == out;
  }

  /** Exactly a value written after the last read is missed, as by a cancelled workflow that is still running. */
  lemma DrainedReaderHasAllExactly(obs: seq<Snapshot>, used: nat, out: seq<string>, final: seq<string>)
    requires used <= |obs| && NoSentinel(out) && EndsWell(obs, used, out, Drained) && obs[used - 1].stream <= final
    ensures out == Cut(final) <==> |final| == |out| || final[|out|] == SENTINEL
  {
    var late := final[|out|..];
    CutExtends(out, late, final);
    if |late| == 0 || late[0] == SENTINEL {
      assert Cut(late) == [];
    } else {
      assert |Cut(late)| > 0;
    }
  }
}
