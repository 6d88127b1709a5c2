/**
Patching workflow code that has executions in flight.

A workflow's checkpoints are numbered by function ID, and replay takes the next one for each step it meets. `patch`
looks at the checkpoint at the current function ID: its own marker means new code, another step's checkpoint means old
code, and if there is none the marker is written. Only a marker uses up a function ID. `deprecatePatch` always takes
the new code and steps over its marker if there is one.

Code is a tree: it branches at patches, and after a step on which of its cases the step's result falls into. A history is
the sequence of checkpoints, each with its name and its result's case.
*/
module Patching {

  datatype Row = Row(name: string, result: nat)

  // `next[i]` is what follows a result of case i; the code ends after any other result.
  datatype Code =
    | Done
    | Step(name: string, next: seq<Code>)
    | Patch(patch: string, newer: Code, older: Code)
    | Deprecated(patch: string, newer: Code)

  const PREFIX := "DBOS.patch-"

  function Marker(patch: string): string {
    PREFIX + patch
  }

  predicate IsMarker(name: string) {
    PREFIX <= name
  }

  lemma MarkersDiffer(p: string, q: string)
    requires Marker(p) == Marker(q)
    ensures p == q
  {
    assert Marker(p)[|PREFIX|..] == p && Marker(q)[|PREFIX|..] == q;
  }

  // The names that the code's first checkpoint may have.
  function Leads(c: Code): set<string> {
    match c
    case Done => {}
    case Step(name, _) => {name}
    case Patch(p, _, older) => {Marker(p)} + Leads(older)
    case Deprecated(p, newer) => {Marker(p)} + Leads(newer)
  }

  // Steps are not named like markers, and a patch is not repeated at its own place.
  predicate WellNamed(c: Code) {
    match c
    case Done => true
    case Step(name, next) => !IsMarker(name) && forall i | 0 <= i < |next| :: WellNamed(next[i])
    case Patch(p, newer, older) => Marker(p) !in Leads(older) && WellNamed(newer) && WellNamed(older)
    case Deprecated(p, newer) => Marker(p) !in Leads(newer) && WellNamed(newer)
  }

  // ---------- Replay ----------

  // Replaying the code meets each checkpoint with the step that it belongs to, and leaves none over.
  predicate Aligned(c: Code, h: seq<Row>) {
    match c
    case Done => h == []
    case Step(name, next) =>
      h == [] || (h[0].name == name && if h[0].result < |next| then Aligned(next[h[0].result], h[1..]) else h[1..] == [])
    case Patch(p, newer, older) => h == [] || if h[0].name == Marker(p) then Aligned(newer, h[1..]) else Aligned(older, h)
    case Deprecated(p, newer) => if h != [] && h[0].name == Marker(p) then Aligned(newer, h[1..]) else Aligned(newer, h)
  }

  datatype Decision = Decision(patch: string, taken: bool)

  // The branches that the history decides, in order.
  function Decided(c: Code, h: seq<Row>): seq<Decision> {
    if h == [] then []
    else
      match c
      case Done => []
      case Step(_, next) => if h[0].result < |next| then Decided(next[h[0].result], h[1..]) else []
      case Patch(p, newer, older) =>
        if h[0].name == Marker(p) then [Decision(p, true)] + Decided(newer, h[1..]) else [Decision(p, false)] + Decided(older, h)
      case Deprecated(p, newer) => Decided(newer, if h[0].name == Marker(p) then h[1..] else h)
  }

  type Results = nat -> nat

  // The history when the code has run to its end from function ID f on, if `world` is what the steps will return.
  function Complete(c: Code, h: seq<Row>, f: nat, world: Results): seq<Row> {
    match c
    case Done => h
    case Step(name, next) =>
      var row := if h == [] then Row(name, world(f)) else h[0];
      var rest := if h == [] then [] else h[1..];
      [row] + if row.result < |next| then Complete(next[row.result], rest, f + 1, world) else rest
    case Patch(p, newer, older) =>
      if h == [] then [Row(Marker(p), 0)] + Complete(newer, [], f + 1, world)
      else if h[0].name == Marker(p) then [h[0]] + Complete(newer, h[1..], f + 1, world)
      else Complete(older, h, f, world)
    case Deprecated(p, newer) =>
      if h != [] && h[0].name == Marker(p) then [h[0]] + Complete(newer, h[1..], f + 1, world) else Complete(newer, h, f, world)
  }

  lemma {:induction false} CompleteLeads(c: Code, f: nat, world: Results)
    ensures Complete(c, [], f, world) != [] ==> Complete(c, [], f, world)[0].name in Leads(c)
  {
    if c.Deprecated? {
      CompleteLeads(c.newer, f, world);
    }
  }

  lemma {:induction false} StartAligned(c: Code)
    ensures Aligned(c, [])
  {
    if c.Deprecated? {
      StartAligned(c.newer);
    }
  }

  /**
  Crash and replay: wherever between its start and its end an execution stops, replaying the same code on what it has
  written keeps function IDs aligned, ends in the same history if the remaining steps return the same, and confirms
  every branch decided before.
  */
  lemma {:induction false} ReplayStable(c: Code, h: seq<Row>, q: seq<Row>, f: nat, world: Results)
    requires WellNamed(c) && Aligned(c, h) && h <= q <= Complete(c, h, f, world)
    ensures Aligned(c, q) && Complete(c, q, f, world) == Complete(c, h, f, world) && Decided(c, h) <= Decided(c, q)
    decreases c, 0
  {
    if q == h {
      return;
    }
    match c
    case Done =>
    case Step(name, next) =>
      if q[0].result < |next| {
        Onward(next[q[0].result], h, q, f, world);
      }
    case Patch(p, newer, older) =>
      if h == [] || h[0].name == Marker(p) {
        Onward(newer, h, q, f, world);
      } else {
        ReplayStable(older, h, q, f, world);
      }
    case Deprecated(p, newer) =>
      if h != [] && h[0].name == Marker(p) {
        Onward(newer, h, q, f, world);
      } else {
        CompleteLeads(newer, f, world);
        ReplayStable(newer, h, q, f, world);
      }
  }

  function Rest(h: seq<Row>): seq<Row> {
    if h == [] then [] else h[1..]
  }

  // One checkpoint is passed or written; the rest is replayed by `d`.
  lemma {:induction false} Onward(d: Code, h: seq<Row>, q: seq<Row>, f: nat, world: Results)
    requires WellNamed(d) && q != [] && h <= q && q != h
    requires (h == [] || Aligned(d, Rest(h))) && q <= [q[0]] + Complete(d, Rest(h), f + 1, world)
    ensures Aligned(d, q[1..]) && Complete(d, q[1..], f + 1, world) == Complete(d, Rest(h), f + 1, world)
    ensures Decided(d, Rest(h)) <= Decided(d, q[1..])
    decreases d, 1
  {
    StartAligned(d);
    assert q[1..] <= ([q[0]] + Complete(d, Rest(h), f + 1, world))[1..] == Complete(d, Rest(h), f + 1, world);
    ReplayStable(d, Rest(h), q[1..], f + 1, world);
  }

  // ---------- Changing the code ----------

  // The code before these patches were made.
  function Without(c: Code, ps: set<string>): Code {
    match c
    case Done => Done
    case Step(name, next) => Step(name, seq(|next|, i requires 0 <= i < |next| => Without(next[i], ps)))
    case Patch(p, newer, older) => if p in ps then Without(older, ps) else Patch(p, Without(newer, ps), Without(older, ps))
    case Deprecated(p, newer) => Deprecated(p, Without(newer, ps))
  }

  // The code when these patches are deprecated.
  function Deprecate(c: Code, ps: set<string>): Code {
    match c
    case Done => Done
    case Step(name, next) => Step(name, seq(|next|, i requires 0 <= i < |next| => Deprecate(next[i], ps)))
    case Patch(p, newer, older) =>
      if p in ps then Deprecated(p, Deprecate(newer, ps)) else Patch(p, Deprecate(newer, ps), Deprecate(older, ps))
    case Deprecated(p, newer) => Deprecated(p, Deprecate(newer, ps))
  }

  // The code when these deprecated patches are removed.
  function Remove(c: Code, ps: set<string>): Code {
    match c
    case Done => Done
    case Step(name, next) => Step(name, seq(|next|, i requires 0 <= i < |next| => Remove(next[i], ps)))
    case Patch(p, newer, older) => Patch(p, Remove(newer, ps), Remove(older, ps))
    case Deprecated(p, newer) => if p in ps then Remove(newer, ps) else Deprecated(p, Remove(newer, ps))
  }

  predicate NoMarkers(h: seq<Row>, ps: set<string>) {
    forall i, p | 0 <= i < |h| && p in ps :: h[i].name != Marker(p)
  }

  lemma NoMarkersLater(h: seq<Row>, ps: set<string>)
    requires NoMarkers(h, ps) && h != []
    ensures NoMarkers(h[1..], ps) && forall p | p in ps :: h[0].name != Marker(p)
  {
  }

  predicate AllTaken(ds: seq<Decision>, ps: set<string>) {
    forall i | 0 <= i < |ds| :: ds[i].patch in ps ==> ds[i].taken
  }

  lemma AllTakenLater(d: Decision, ds: seq<Decision>, ps: set<string>)
    requires AllTaken([d] + ds, ps)
    ensures AllTaken(ds, ps) && (d.patch in ps ==> d.taken)
  {
    assert ([d] + ds)[0] == d;
    forall i | 0 <= i < |ds| ensures ds[i].patch in ps ==> ds[i].taken {
      assert ([d] + ds)[i + 1] == ds[i];
    }
  }

  // The decisions about one patch, in order.
  function About(ds: seq<Decision>, p: string): seq<bool> {
    if |ds| == 0 then [] else (if ds[0].patch == p then [ds[0].taken] else []) + About(ds[1..], p)
  }

  lemma AboutMore(d: Decision, ds: seq<Decision>, p: string)
    ensures About([d] + ds, p) == (if d.patch == p then [d.taken] else []) + About(ds, p)
  {
    assert ([d] + ds)[1..] == ds;
  }

  lemma {:induction false} AboutPrefix(ds: seq<Decision>, es: seq<Decision>, p: string)
    requires ds <= es
    ensures About(ds, p) <= About(es, p)
  {
    if |ds| > 0 {
      AboutPrefix(ds[1..], es[1..], p);
    }
  }

  /**
  Patched code replays every history of the code before its patches, wherever that execution stopped; it takes the
  old branch wherever the history decides, and other patches are decided as before.
  */
  lemma {:induction false} OldHistoryAligned(c: Code, ps: set<string>, h: seq<Row>, p: string)
    requires Aligned(Without(c, ps), h) && NoMarkers(h, ps)
    ensures Aligned(c, h)
    ensures p in ps ==> About(Decided(Without(c, ps), h), p) == [] && forall i | 0 <= i < |About(Decided(c, h), p)| :: !About(Decided(c, h), p)[i]
    ensures p !in ps ==> About(Decided(c, h), p) == About(Decided(Without(c, ps), h), p)
  {
    if h != [] {
      NoMarkersLater(h, ps);
      match c
      case Done =>
      case Step(_, next) =>
        if h[0].result < |next| {
          OldHistoryAligned(next[h[0].result], ps, h[1..], p);
        }
      case Patch(q, newer, older) =>
        if h[0].name == Marker(q) {
          OldHistoryAligned(newer, ps, h[1..], p);
          AboutMore(Decision(q, true), Decided(newer, h[1..]), p);
          AboutMore(Decision(q, true), Decided(Without(newer, ps), h[1..]), p);
        } else {
          OldHistoryAligned(older, ps, h, p);
          AboutMore(Decision(q, false), Decided(older, h), p);
          AboutMore(Decision(q, false), Decided(Without(older, ps), h), p);
        }
      case Deprecated(q, newer) => OldHistoryAligned(newer, ps, if h[0].name == Marker(q) then h[1..] else h, p);
    } else {
      StartAligned(c);
    }
  }

  /** Once every patch decision of a history is for the new code, its patches can be deprecated; the others keep their decisions. */
  lemma {:induction false} PatchedHistoryAligned(c: Code, ps: set<string>, h: seq<Row>, p: string)
    requires Aligned(c, h) && AllTaken(Decided(c, h), ps)
    ensures Aligned(Deprecate(c, ps), h)
    ensures p !in ps ==> About(Decided(Deprecate(c, ps), h), p) == About(Decided(c, h), p)
  {
    if h != [] {
      match c
      case Done =>
      case Step(_, next) =>
        if h[0].result < |next| {
          PatchedHistoryAligned(next[h[0].result], ps, h[1..], p);
        }
      case Patch(q, newer, older) =>
        if h[0].name == Marker(q) {
          AllTakenLater(Decision(q, true), Decided(newer, h[1..]), ps);
          PatchedHistoryAligned(newer, ps, h[1..], p);
          AboutMore(Decision(q, true), Decided(newer, h[1..]), p);
          AboutMore(Decision(q, true), Decided(Deprecate(newer, ps), h[1..]), p);
        } else {
          AllTakenLater(Decision(q, false), Decided(older, h), ps);
          PatchedHistoryAligned(older, ps, h, p);
          AboutMore(Decision(q, false), Decided(older, h), p);
          AboutMore(Decision(q, false), Decided(Deprecate(older, ps), h), p);
        }
      case Deprecated(q, newer) => PatchedHistoryAligned(newer, ps, if h[0].name == Marker(q) then h[1..] else h, p);
    } else {
      StartAligned(Deprecate(c, ps));
    }
  }

  // The names that a history of the code, or of the code with patches deprecated, may begin with.
  function Starts(c: Code): set<string> {
    match c
    case Done => {}
    case Step(name, _) => {name}
    case Patch(p, newer, older) => {Marker(p)} + Starts(newer) + Starts(older)
    case Deprecated(p, newer) => {Marker(p)} + Starts(newer)
  }

  // The branches of these patches begin differently.
  predicate BranchesDiffer(c: Code, ps: set<string>) {
    match c
    case Done => true
    case Step(_, next) => forall i | 0 <= i < |next| :: BranchesDiffer(next[i], ps)
    case Patch(p, newer, older) =>
      (p in ps ==> Starts(newer) !! Starts(older)) && BranchesDiffer(newer, ps) && BranchesDiffer(older, ps)
    case Deprecated(_, newer) => BranchesDiffer(newer, ps)
  }

  lemma {:induction false} AlignedStarts(c: Code, h: seq<Row>)
    requires Aligned(c, h) && h != []
    ensures h[0].name in Starts(c)
  {
    match c
    case Step(_, _) =>
    case Patch(p, newer, older) =>
      if h[0].name != Marker(p) {
        AlignedStarts(older, h);
      }
    case Deprecated(p, newer) =>
      if h[0].name != Marker(p) {
        AlignedStarts(newer, h);
      }
  }

  lemma {:induction false} DeprecateStarts(c: Code, ps: set<string>)
    ensures Starts(Deprecate(c, ps)) <= Starts(c)
  {
    match c
    case Patch(_, newer, older) =>
      DeprecateStarts(newer, ps);
      DeprecateStarts(older, ps);
    case Deprecated(_, newer) => DeprecateStarts(newer, ps);
    case _ =>
  }

  // An unpatched decision shows: the history does not begin as the new code does.
  lemma OldBranchShows(p: string, newer: Code, older: Code, ps: set<string>, h: seq<Row>)
    requires h != [] && h[0].name != Marker(p) && Aligned(older, h) && Starts(newer) !! Starts(older)
    ensures !Aligned(Deprecated(p, Deprecate(newer, ps)), h)
  {
    AlignedStarts(older, h);
    DeprecateStarts(newer, ps);
    if Aligned(Deprecate(newer, ps), h) {
      AlignedStarts(Deprecate(newer, ps), h);
    }
  }

  lemma {:induction false} DeprecatedOnlyIfTaken(c: Code, ps: set<string>, h: seq<Row>)
    requires BranchesDiffer(c, ps) && Aligned(c, h) && Aligned(Deprecate(c, ps), h)
    ensures AllTaken(Decided(c, h), ps)
  {
    if h != [] {
      match c
      case Done =>
      case Step(_, next) =>
        if h[0].result < |next| {
          DeprecatedOnlyIfTaken(next[h[0].result], ps, h[1..]);
        }
      case Patch(p, newer, older) =>
        if h[0].name == Marker(p) {
          DeprecatedOnlyIfTaken(newer, ps, h[1..]);
        } else {
          if p in ps {
            OldBranchShows(p, newer, older, ps, h);
          }
          DeprecatedOnlyIfTaken(older, ps, h);
        }
      case Deprecated(p, newer) => DeprecatedOnlyIfTaken(newer, ps, if h[0].name == Marker(p) then h[1..] else h);
    }
  }

  /** Patches whose branches begin differently can be deprecated for exactly the histories that decide them for the new code. */
  lemma DeprecatedAlignedExactly(c: Code, ps: set<string>, h: seq<Row>)
    requires BranchesDiffer(c, ps) && Aligned(c, h)
    ensures Aligned(Deprecate(c, ps), h) <==> AllTaken(Decided(c, h), ps)
  {
    if AllTaken(Decided(c, h), ps) {
      PatchedHistoryAligned(c, ps, h, "");
    }
    if Aligned(Deprecate(c, ps), h) {
      DeprecatedOnlyIfTaken(c, ps, h);
    }
  }

  // The code can write a checkpoint of this name.
  predicate Mentions(c: Code, name: string) {
    match c
    case Done => false
    case Step(n, next) => n == name || exists i :: 0 <= i < |next| && Mentions(next[i], name)
    case Patch(p, newer, older) => Marker(p) == name || Mentions(newer, name) || Mentions(older, name)
    case Deprecated(p, newer) => Marker(p) == name || Mentions(newer, name)
  }

  lemma {:induction false} AlignedNames(c: Code, h: seq<Row>, i: nat)
    requires Aligned(c, h) && i < |h|
    ensures Mentions(c, h[i].name)
    decreases c
  {
    match c
    case Step(_, next) =>
      if i > 0 {
        AlignedNames(next[h[0].result], h[1..], i - 1);
      }
    case Patch(p, newer, older) =>
      if h[0].name != Marker(p) {
        AlignedNames(older, h, i);
      } else if i > 0 {
        AlignedNames(newer, h[1..], i - 1);
      }
    case Deprecated(p, newer) =>
      if h[0].name != Marker(p) {
        AlignedNames(newer, h, i);
      } else if i > 0 {
        AlignedNames(newer, h[1..], i - 1);
      }
  }

  // None of these patches is still a `patch`.
  predicate AllDeprecated(c: Code, ps: set<string>) {
    match c
    case Done => true
    case Step(_, next) => forall i | 0 <= i < |next| :: AllDeprecated(next[i], ps)
    case Patch(p, newer, older) => p !in ps && AllDeprecated(newer, ps) && AllDeprecated(older, ps)
    case Deprecated(_, newer) => AllDeprecated(newer, ps)
  }

  lemma {:induction false} RemovedNames(c: Code, ps: set<string>, p: string)
    requires WellNamed(c) && AllDeprecated(c, ps) && p in ps
    ensures !Mentions(Remove(c, ps), Marker(p))
  {
    match c
    case Done =>
    case Step(name, next) =>
      forall i | 0 <= i < |next| ensures !Mentions(Remove(next[i], ps), Marker(p)) {
        RemovedNames(next[i], ps, p);
      }
    case Patch(q, newer, older) =>
      RemovedNames(newer, ps, p);
      RemovedNames(older, ps, p);
      if Marker(q) == Marker(p) {
        MarkersDiffer(q, p);
      }
    case Deprecated(q, newer) =>
      RemovedNames(newer, ps, p);
      if Marker(q) == Marker(p) {
        MarkersDiffer(q, p);
      }
  }

  lemma {:induction false} RemovedAligned(c: Code, ps: set<string>, h: seq<Row>)
    requires Aligned(c, h) && NoMarkers(h, ps)
    ensures Aligned(Remove(c, ps), h) && Decided(Remove(c, ps), h) == Decided(c, h)
  {
    if h != [] {
      NoMarkersLater(h, ps);
      match c
      case Done =>
      case Step(_, next) =>
        if h[0].result < |next| {
          RemovedAligned(next[h[0].result], ps, h[1..]);
        }
      case Patch(p, newer, older) =>
        if h[0].name == Marker(p) {
          RemovedAligned(newer, ps, h[1..]);
        } else {
          RemovedAligned(older, ps, h);
        }
      case Deprecated(p, newer) => RemovedAligned(newer, ps, if h[0].name == Marker(p) then h[1..] else h);
    } else {
      StartAligned(Remove(c, ps));
    }
  }

  /** Deprecated patches can be removed for exactly the histories that hold none of their markers. */
  lemma RemovedAlignedExactly(c: Code, ps: set<string>, h: seq<Row>)
    requires WellNamed(c) && AllDeprecated(c, ps) && Aligned(c, h)
    ensures Aligned(Remove(c, ps), h) <==> NoMarkers(h, ps)
  {
    if NoMarkers(h, ps) {
      RemovedAligned(c, ps, h);
    } else {
      var i, p :| 0 <= i < |h| && p in ps && h[i].name == Marker(p);
      RemovedNames(c, ps, p);
      if Aligned(Remove(c, ps), h) {
        AlignedNames(Remove(c, ps), h, i);
      }
    }
  }

  // ---------- A workflow's life ----------

  // What happens to one workflow: executions that stop anywhere, and deployments of changed code in between.
  datatype Change =
    | Execute(q: seq<Row>, world: Results)
    | AddPatches(patched: Code, ps: set<string>)
    | DeprecatePatches(ps: set<string>)
    | RemovePatches(ps: set<string>)

  // As the documentation allows: patches are new to the history; they are deprecated when no unpatched execution is
  // left, and removed when no execution with a marker is left.
  ghost predicate Allowed(c: Code, h: seq<Row>, ch: Change) {
    match ch
    case Execute(q, world) => h <= q <= Complete(c, h, 0, world)
    case AddPatches(patched, ps) => WellNamed(patched) && Without(patched, ps) == c && NoMarkers(h, ps)
    case DeprecatePatches(ps) => WellNamed(Deprecate(c, ps)) && AllTaken(Decided(c, h), ps)
    case RemovePatches(ps) => WellNamed(Remove(c, ps)) && NoMarkers(h, ps)
  }

  function CodeAfter(c: Code, ch: Change): Code {
    match ch
    case Execute(_, _) => c
    case AddPatches(patched, _) => patched
    case DeprecatePatches(ps) => Deprecate(c, ps)
    case RemovePatches(ps) => Remove(c, ps)
  }

  function HistoryAfter(h: seq<Row>, ch: Change): seq<Row> {
    if ch.Execute? then ch.q else h
  }

  ghost predicate AllAllowed(c: Code, h: seq<Row>, chs: seq<Change>)
    decreases |chs|
  {
    |chs| == 0 || (Allowed(c, h, chs[0]) && AllAllowed(CodeAfter(c, chs[0]), HistoryAfter(h, chs[0]), chs[1..]))
  }

  function FinalCode(c: Code, chs: seq<Change>): Code
    decreases |chs|
  {
    if |chs| == 0 then c else FinalCode(CodeAfter(c, chs[0]), chs[1..])
  }

  function FinalHistory(h: seq<Row>, chs: seq<Change>): seq<Row>
    decreases |chs|
  {
    if |chs| == 0 then h else FinalHistory(HistoryAfter(h, chs[0]), chs[1..])
  }

  predicate NeverDeprecated(p: string, chs: seq<Change>) {
    forall i | 0 <= i < |chs| :: chs[i].DeprecatePatches? ==> p !in chs[i].ps
  }

  lemma ChangeKeeps(c: Code, h: seq<Row>, ch: Change, p: string)
    requires WellNamed(c) && Aligned(c, h) && Allowed(c, h, ch)
    ensures var c', h' := CodeAfter(c, ch), HistoryAfter(h, ch);
            && WellNamed(c') && Aligned(c', h') && h <= h'
            && (!(ch.DeprecatePatches? && p in ch.ps) ==> About(Decided(c, h), p) <= About(Decided(c', h'), p))
  {
    match ch
    case Execute(q, world) =>
      ReplayStable(c, h, q, 0, world);
      AboutPrefix(Decided(c, h), Decided(c, q), p);
    case AddPatches(patched, ps) => OldHistoryAligned(patched, ps, h, p);
    case DeprecatePatches(ps) => PatchedHistoryAligned(c, ps, h, p);
    case RemovePatches(ps) => RemovedAligned(c, ps, h);
  }

  /**
  Over a workflow's whole life, through crashes and deployments made as documented, whatever code is deployed meets
  the history that earlier code wrote with its function IDs aligned, and what the history has decided about a patch that
  is still a patch stays decided.
  */
  lemma {:induction false} DeploymentsStayAligned(c: Code, h: seq<Row>, chs: seq<Change>, p: string)
    requires WellNamed(c) && Aligned(c, h) && AllAllowed(c, h, chs)
    ensures var c', h' := FinalCode(c, chs), FinalHistory(h, chs);
            && Aligned(c', h') && h <= h'
            && (NeverDeprecated(p, chs) ==> About(Decided(c, h), p) <= About(Decided(c', h'), p))
    decreases |chs|
  {
    if |chs| > 0 {
      ChangeKeeps(c, h, chs[0], p);
      DeploymentsStayAligned(CodeAfter(c, chs[0]), HistoryAfter(h, chs[0]), chs[1..], p);
      assert NeverDeprecated(p, chs) ==> NeverDeprecated(p, chs[1..]) && !(chs[0].DeprecatePatches? && p in chs[0].ps);
    }
  }

  /** Deprecating a patch while an old execution is unfinished breaks its replay. */
  lemma DeprecatedTooEarly(c: Code, h: seq<Row>)
    requires c == Patch("p", Step("new", []), Step("old", [])) && h == [Row("old", 0)]
    ensures WellNamed(c) && Aligned(c, h) && !Aligned(Deprecate(c, {"p"}), h)
  {
    assert Marker("p")[0] == 'D';
    assert "new"[0] == 'n' && "old"[0] == 'o' && PREFIX[0] == 'D';
    assert h[1..] == [];
    assert Deprecate(c, {"p"}) == Deprecated("p", Step("new", []));
  }

  // ---------- The calls ----------

  // The checkpoints from a function ID on, as far as they go without a gap.
  ghost predicate IsRest(rows: map<nat, string>, f: nat, h: seq<string>) {
    (forall g: nat | f <= g < f + |h| :: g in rows && rows[g] == h[g - f]) && f + |h| !in rows
  }

  lemma PassOne(rows: map<nat, string>, f: nat, h: seq<string>)
    requires IsRest(rows, f, h) && h != []
    ensures IsRest(rows, f + 1, h[1..])
  {
  }

  /** A running workflow: its checkpoints and its next function ID. */
  class WorkflowContext {
    var rows: map<nat, string>
    var functionId: nat

    method CheckPatch(patch: string, deprecated: bool) returns (isPatched: bool, hasEntry: bool)
      modifies this`rows
      ensures isPatched == (deprecated || functionId !in old(rows) || old(rows)[functionId] == Marker(patch))
      ensures hasEntry == (functionId in rows && rows[functionId] == Marker(patch))
      ensures rows == if deprecated || functionId in old(rows) then old(rows) else old(rows)[functionId := Marker(patch)]
    {
      if deprecated {
        return true, functionId in rows && rows[functionId] == Marker(patch);
      }
      if functionId in rows {
        return rows[functionId] == Marker(patch), rows[functionId] == Marker(patch);
      }
      rows := rows[functionId := Marker(patch)];
      return true, true;
    }

    ghost predicate Ahead(h: seq<string>)
      reads this
    {
      IsRest(rows, functionId, h)
    }

    /** `DBOS.patch`: the branch it takes and the checkpoints left for it are those of the replay above. */
    method CallPatch(patch: string, ghost h: seq<string>) returns (taken: bool)
      requires Ahead(h)
      modifies this
      ensures taken == (h == [] || h[0] == Marker(patch))
      ensures functionId == old(functionId) + if taken then 1 else 0
      ensures forall f | f in old(rows) :: f in rows && rows[f] == old(rows)[f]
      ensures h == [] ==> rows == old(rows)[old(functionId) := Marker(patch)]
      ensures h != [] ==> rows == old(rows) && Ahead(if taken then h[1..] else h)
    {
      var hasEntry;
      taken, hasEntry := CheckPatch(patch, false);
      if hasEntry {
        functionId := functionId + 1;
        if h != [] {
          PassOne(rows, old(functionId), h);
        }
      }
    }

    /** `DBOS.deprecatePatch` */
    method CallDeprecated(patch: string, ghost h: seq<string>) returns (taken: bool)
      requires Ahead(h)
      modifies this
      ensures taken && rows == old(rows)
      ensures Ahead(if h != [] && h[0] == Marker(patch) then h[1..] else h)
    {
      var hasEntry;
      taken, hasEntry := CheckPatch(patch, true);
      if hasEntry {
        functionId := functionId + 1;
        if h != [] {
          PassOne(rows, old(functionId), h);
        }
      }
    }
  }
}
