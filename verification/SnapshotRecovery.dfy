/**
The global limit under overlapping snapshot dequeues, with recoveries and resumes that put running rows back ahead of
waiting ones.

A row that was running when a dequeue took its snapshot has been counted by it. If it is recovered and claimed by a later
dequeue, the older one may still commit its own claim: the limit has room for both. What each open dequeue may still add is
kept in a ledger.
*/
module SnapshotRecovery {
  import opened Common
  import opened WorkflowStatus
  import opened StatusMachine
  import opened SnapshotDequeue
  import Q = QueueDispatch

  // New and changed rows come behind the first row the transaction has seen, unless it has counted them as running.
  ghost predicate BehindOrCounted(c: Config, t: Table, t': Table, tx: Tx) {
    forall f, n | f !in tx.touched && IsFirst(c, tx.snap, f) && Unchanged(t, t', f) && n in c.Eligible(t') && n != f && !Unchanged(t, t', n) ::
      StrictlyBefore(t[f], t'[n]) || n in c.Running(tx.snap)
  }

  ghost predicate NotOvertakenByNew(c: Config, s: State, t': Table) {
    forall x | x in s.open :: Harmless(c, s.open[x]) || BehindOrCounted(c, s.t, t', s.open[x])
  }

  // Recoveries are free, except of workflows that had no queue and are put on this one.
  predicate Returning(c: Config, op: Op) {
    op.Recover? && op.queue != c.queue.name
  }

  ghost predicate CalmEvent(c: Config, s: State, ev: Event) {
    match ev
    case Begin(_, d) => d.Refused(s.t) || NoTieForFirst(c, s.t)
    case Other(op) => Returning(c, op) || NotOvertakenByNew(c, s, Next(s.t, op))
    case _ => true
  }

  ghost predicate Calm(c: Config, s: State, evs: seq<Event>)
    requires History(c, s, evs)
    decreases |evs|
  {
    |evs| == 0 || (CalmEvent(c, s, evs[0]) && Calm(c, NextState(c, s, evs[0]), evs[1..]))
  }

  // ---------- The ledger ----------

  // `budget` holds all that runs, and all that fenced dequeues may still claim; `leads` are the open dequeues that have
  // counted all that runs.
  datatype Ledger = Ledger(budget: set<string>, age: map<nat, nat>, leads: set<nat>)

  // The transaction could still claim, and then claims f first.
  ghost predicate Alive(c: Config, tx: Tx, f: string) {
    !Harmless(c, tx) && IsFirst(c, tx.snap, f) && f !in tx.touched
  }

  // What is ahead of f, waiting or running, has been counted as running.
  predicate AheadCounted(c: Config, t: Table, tx: Tx, f: string) {
    f in t && forall e | e in c.Eligible(t) + c.Running(t) && e != f :: StrictlyBefore(t[f], t[e]) || e in c.Running(tx.snap)
  }

  // Row g is gone, so only rows up to it can be claimed, and those are in the budget.
  predicate Fence(c: Config, tx: Tx, budget: set<string>, g: string) {
    && g in c.Eligible(tx.snap) && g in tx.touched
    && forall e | e in c.Eligible(tx.snap) && e != g && Q.Before(tx.snap[e], tx.snap[g]) :: e in budget
  }

  ghost predicate Fenced(c: Config, tx: Tx, budget: set<string>) {
    c.Running(tx.snap) <= budget && exists g :: Fence(c, tx, budget, g)
  }

  ghost predicate Stands(c: Config, t: Table, l: Ledger, x: nat, tx: Tx, f: string) {
    && f in c.Eligible(t) && AheadCounted(c, t, tx, f)
    && if x in l.leads then c.Running(t) <= c.Running(tx.snap) else Fenced(c, tx, l.budget)
  }

  ghost predicate TxFine(c: Config, t: Table, l: Ledger, x: nat, tx: Tx) {
    && Lawful(c, tx) && tx.snap.Keys <= t.Keys
    && (Harmless(c, tx) || exists f :: IsFirst(c, tx.snap, f))
    && forall f | Alive(c, tx, f) :: Stands(c, t, l, x, tx, f)
  }

  predicate SameButSel(tx: Tx, tx': Tx) {
    tx'.d == tx.d && tx'.snap == tx.snap && tx'.touched == tx.touched
  }

  // Another table and ledger, and more rows touched.
  lemma TxFineFrom(c: Config, t: Table, l: Ledger, x: nat, tx: Tx, t': Table, l': Ledger, tx': Tx)
    requires TxFine(c, t, l, x, tx) && Lawful(c, tx') && tx'.snap == tx.snap && tx'.d == tx.d && t.Keys <= t'.Keys
    requires forall f | Alive(c, tx', f) :: Stands(c, t', l', x, tx', f)
    ensures TxFine(c, t', l', x, tx')
  {
    if !Harmless(c, tx') {
      var f :| IsFirst(c, tx.snap, f);
    }
  }

  // tx began before ty.
  ghost predicate PairFine(c: Config, l: Ledger, x: nat, tx: Tx, ty: Tx) {
    && ty.touched <= tx.touched && tx.snap.Keys <= ty.snap.Keys
    && forall f | Alive(c, tx, f) ::
         && f in c.Eligible(ty.snap) && AheadCounted(c, ty.snap, tx, f)
         && c.Running(ty.snap) <= if x in l.leads then c.Running(tx.snap) else l.budget
  }

  predicate AgesFine(l: Ledger, s: State) {
    l.age.Keys == s.open.Keys && forall x, y | x in l.age && y in l.age && x != y :: l.age[x] != l.age[y]
  }

  ghost predicate Balanced(c: Config, limit: nat, l: Ledger, s: State) {
    && Ok(c, s) && c.queue.concurrency == Some(limit) && AgesFine(l, s)
    && |l.budget| <= limit && c.Running(s.t) <= l.budget
    && (forall x | x in s.open :: TxFine(c, s.t, l, x, s.open[x]))
    && (forall x, y | x in s.open && y in s.open && l.age[x] < l.age[y] :: PairFine(c, l, x, s.open[x], s.open[y]))
  }

  // ---------- Two open dequeues ----------

  // What the older one has seen, and nobody has changed, the younger one has seen too.
  lemma YoungerSees(c: Config, limit: nat, l: Ledger, s: State, x: nat, y: nat, e: string)
    requires Balanced(c, limit, l, s) && x in s.open && y in s.open && l.age[x] < l.age[y]
    requires e in s.open[x].snap && e !in s.open[x].touched
    ensures e in s.t && e in s.open[y].snap && e !in s.open[y].touched
    ensures s.open[y].snap[e] == s.t[e] == s.open[x].snap[e]
  {
    assert PairFine(c, l, x, s.open[x], s.open[y]);
  }

  // A dequeue that has seen the other's first row running began before it.
  lemma SawItRunning(c: Config, limit: nat, l: Ledger, s: State, x: nat, y: nat, f: string)
    requires Balanced(c, limit, l, s) && x in s.open && y in s.open && x != y
    requires Alive(c, s.open[x], f) && f in c.Running(s.open[y].snap)
    ensures l.age[y] < l.age[x]
  {
    if l.age[x] < l.age[y] {
      YoungerSees(c, limit, l, s, x, y, f);
    }
  }

  // ---------- What a commit claims ----------

  lemma ClaimedRows(c: Config, s: State, x: nat, e: string)
    requires Ok(c, s) && x in s.open && s.open[x].sel.Some? && Lawful(c, s.open[x]) && e in s.open[x].Claims()
    ensures e in c.Eligible(s.open[x].snap) && e !in s.open[x].touched && e in s.t && s.t[e] == s.open[x].snap[e] && e in c.Eligible(s.t)
  {
    var tx := s.open[x];
    ClaimsLegal(c, tx);
    Q.ClaimsBounded(tx.d.(claimed := tx.Claims()), tx.snap);
    ClaimsLocked(tx);
    assert e in Q.Ids(tx.Claims());
  }

  // The claims are a prefix of what the snapshot holds.
  lemma ClaimsPrefix(c: Config, tx: Tx, e: string, b: string)
    requires c.Mine(tx.d) && tx.sel.Some? && Lawful(c, tx) && e in tx.Claims() && b in c.Eligible(tx.snap) && b !in tx.Claims()
    ensures e in tx.snap && Q.Before(tx.snap[e], tx.snap[b])
  {
    var d := tx.d.(claimed := tx.Claims());
    ClaimsLegal(c, tx);
    Q.ClaimsArePrefix(d, tx.snap);
    assert Q.LeadsOrder(tx.snap, c.Eligible(tx.snap), d.claimed);
    var i :| 0 <= i < |d.claimed| && d.claimed[i] == e;
  }

  lemma Claimant(c: Config, limit: nat, l: Ledger, s: State, x: nat) returns (f: string)
    requires Balanced(c, limit, l, s) && x in s.open && s.open[x].sel.Some? && |s.open[x].Claims()| > 0
    ensures Alive(c, s.open[x], f) && f in s.open[x].Claims()
  {
    var tx := s.open[x];
    assert TxFine(c, s.t, l, x, tx);
    if Harmless(c, tx) {
      NothingToSelect(c, tx);
      assert false;
    }
    f :| IsFirst(c, tx.snap, f);
    SelectsFirst(c, tx, f);
  }

  // The committing dequeue x and another one y, both alive, where x does not take the first row of y.
  ghost predicate Meeting(c: Config, limit: nat, l: Ledger, s: State, x: nat, f: string, y: nat, g: string) {
    && Balanced(c, limit, l, s) && x in s.open && y in s.open && x != y && s.open[x].sel.Some?
    && Alive(c, s.open[x], f) && f in s.open[x].Claims() && Alive(c, s.open[y], g) && g !in s.open[x].Claims()
  }

  lemma AheadOf(c: Config, limit: nat, l: Ledger, s: State, y: nat, g: string, e: string)
    requires Balanced(c, limit, l, s) && y in s.open && Alive(c, s.open[y], g) && e in c.Eligible(s.t) + c.Running(s.t) && e != g
    ensures g in c.Eligible(s.t) && (StrictlyBefore(s.t[g], s.t[e]) || e in c.Running(s.open[y].snap))
  {
    assert TxFine(c, s.t, l, y, s.open[y]);
  }

  lemma ClaimWasCounted(c: Config, limit: nat, l: Ledger, s: State, x: nat, y: nat, g: string, e: string)
    requires Balanced(c, limit, l, s) && x in s.open && y in s.open && s.open[x].sel.Some? && l.age[y] < l.age[x]
    requires Alive(c, s.open[y], g) && g !in s.open[x].Claims() && e in s.open[x].Claims()
    ensures e in c.Running(s.open[y].snap)
  {
    YoungerSees(c, limit, l, s, y, x, g);
    assert TxFine(c, s.t, l, x, s.open[x]);
    ClaimedRows(c, s, x, e);
    AheadOf(c, limit, l, s, y, g, e);
    ClaimsPrefix(c, s.open[x], e, g);
  }

  // If y has seen f running, it has seen all that x claims running.
  lemma ClaimsWereCounted(c: Config, limit: nat, l: Ledger, s: State, x: nat, f: string, y: nat, g: string)
    requires Meeting(c, limit, l, s, x, f, y, g) && f in c.Running(s.open[y].snap)
    ensures l.age[y] < l.age[x] && Q.Ids(s.open[x].Claims()) <= c.Running(s.open[y].snap)
  {
    SawItRunning(c, limit, l, s, x, y, f);
    forall e | e in s.open[x].Claims() ensures e in c.Running(s.open[y].snap) {
      ClaimWasCounted(c, limit, l, s, x, y, g, e);
    }
  }

  lemma OlderSeesAhead(c: Config, limit: nat, l: Ledger, s: State, x: nat, f: string, y: nat, e: string)
    requires Balanced(c, limit, l, s) && x in s.open && y in s.open && l.age[x] < l.age[y] && Alive(c, s.open[x], f)
    ensures f in c.Eligible(s.open[y].snap)
    ensures e in c.Eligible(s.open[y].snap) && e != f ==>
              StrictlyBefore(s.open[y].snap[f], s.open[y].snap[e]) || e in c.Running(s.open[x].snap)
  {
    assert PairFine(c, l, x, s.open[x], s.open[y]);
  }

  // Otherwise x is the older one.
  lemma ClaimantIsOlder(c: Config, limit: nat, l: Ledger, s: State, x: nat, f: string, y: nat, g: string)
    requires Meeting(c, limit, l, s, x, f, y, g) && f !in c.Running(s.open[y].snap)
    ensures l.age[x] < l.age[y]
  {
    ClaimedRows(c, s, x, f) by {
      assert TxFine(c, s.t, l, x, s.open[x]);
    }
    AheadOf(c, limit, l, s, y, g, f);
    AheadOf(c, limit, l, s, x, f, g);
    SawItRunning(c, limit, l, s, y, x, g);
  }

  // ... and its first row fences y.
  lemma FirstFences(c: Config, limit: nat, l: Ledger, s: State, x: nat, f: string, y: nat, e: string)
    requires Balanced(c, limit, l, s) && x in s.open && y in s.open && l.age[x] < l.age[y] && Alive(c, s.open[x], f)
    requires e in c.Eligible(s.open[y].snap) && e != f
    ensures f in c.Eligible(s.open[y].snap) && (Q.Before(s.open[y].snap[e], s.open[y].snap[f]) ==> e in c.Running(s.open[x].snap))
  {
    OlderSeesAhead(c, limit, l, s, x, f, y, e);
  }

  // ---------- The ledger after a commit ----------

  // y is still alive after x has committed.
  ghost predicate Passed(c: Config, s: State, x: nat, y: nat)
    requires x in s.open && s.open[x].sel.Some? && y in s.open
  {
    exists g :: Alive(c, s.open[y], g) && g !in s.open[x].Claims()
  }

  // A fenced dequeue that has seen the first claim running.
  ghost predicate Covers(c: Config, l: Ledger, s: State, x: nat, f: string, y: nat)
    requires x in s.open && s.open[x].sel.Some?
  {
    y in s.open && y != x && y !in l.leads && Passed(c, s, x, y) && f in c.Running(s.open[y].snap)
  }

  ghost predicate BudgetStays(c: Config, l: Ledger, s: State, x: nat, f: string)
    requires x in s.open && s.open[x].sel.Some?
  {
    x !in l.leads || exists y :: Covers(c, l, s, x, f, y)
  }

  ghost function LedgerAfter(c: Config, l: Ledger, s: State, x: nat, f: string): Ledger
    requires x in s.open && s.open[x].sel.Some?
  {
    Ledger(
      if BudgetStays(c, l, s, x, f) then l.budget else c.Running(s.open[x].snap) + Q.Ids(s.open[x].Claims()),
      l.age - {x},
      set y | y in l.leads && y in s.open && y != x && (Passed(c, s, x, y) ==> f in c.Running(s.open[y].snap)))
  }

  // x commits claims, the first of which is f.
  ghost predicate Committing(c: Config, limit: nat, l: Ledger, s: State, x: nat, f: string) {
    Balanced(c, limit, l, s) && x in s.open && s.open[x].sel.Some? && Alive(c, s.open[x], f) && f in s.open[x].Claims()
  }

  lemma FencedClaims(c: Config, limit: nat, l: Ledger, s: State, x: nat, f: string)
    requires Committing(c, limit, l, s, x, f) && x !in l.leads
    ensures Q.Ids(s.open[x].Claims()) <= l.budget && c.Running(s.open[x].snap) <= l.budget
  {
    var tx := s.open[x];
    assert TxFine(c, s.t, l, x, tx);
    var g :| Fence(c, tx, l.budget, g);
    ClaimsLocked(tx);
    forall e | e in tx.Claims() ensures e in l.budget {
      ClaimedRows(c, s, x, e);
      assert g !in Q.Ids(tx.Claims());
      ClaimsPrefix(c, tx, e, g);
    }
  }

  lemma CoveredClaims(c: Config, limit: nat, l: Ledger, s: State, x: nat, f: string, y: nat) returns (g: string)
    requires Committing(c, limit, l, s, x, f) && Covers(c, l, s, x, f, y)
    ensures Alive(c, s.open[y], g) && g !in s.open[x].Claims() && l.age[y] < l.age[x]
    ensures Q.Ids(s.open[x].Claims()) <= c.Running(s.open[y].snap) <= l.budget
  {
    g :| Alive(c, s.open[y], g) && g !in s.open[x].Claims();
    ClaimsWereCounted(c, limit, l, s, x, f, y, g);
    assert TxFine(c, s.t, l, y, s.open[y]);
  }

  lemma BudgetHolds(c: Config, limit: nat, l: Ledger, s: State, x: nat, f: string)
    requires Committing(c, limit, l, s, x, f)
    ensures var l' := LedgerAfter(c, l, s, x, f);
            |l'.budget| <= limit && c.Running(s.t) + Q.Ids(s.open[x].Claims()) <= l'.budget
  {
    var tx := s.open[x];
    assert TxFine(c, s.t, l, x, tx);
    if x !in l.leads {
      FencedClaims(c, limit, l, s, x, f);
    } else if BudgetStays(c, l, s, x, f) {
      var y :| Covers(c, l, s, x, f, y);
      var g := CoveredClaims(c, limit, l, s, x, f, y);
    } else {
      ClaimsFit(c, limit, tx.snap, tx);
    }
  }

  // ---------- Another dequeue after the commit ----------

  lemma RowAfterCommit(t: Table, tx: Tx, e: string)
    requires tx.sel.Some? && e in t
    ensures e in Next(t, Update(tx)) && Next(t, Update(tx))[e].priority == t[e].priority && Next(t, Update(tx))[e].createdAt == t[e].createdAt
    ensures e !in tx.Claims() ==> Next(t, Update(tx))[e] == t[e]
  {
    CommitChanges(t, tx);
    RowKeepsOrder(Update(tx), e, t[e]);
  }

  // Only setWorkflowPriority changes a row's place, and only while it waits.
  lemma RowKeepsOrder(op: Op, id: string, row: Row)
    ensures !op.SetPriority? || !Waiting(row.status) ==> NextRow(op, id, row).priority == row.priority
    ensures NextRow(op, id, row).createdAt == row.createdAt
  {
  }

  lemma AheadAfterCommit(c: Config, s: State, x: nat, tx: Tx, ty: Tx, g: string)
    requires Ok(c, s) && x in s.open && tx == s.open[x] && tx.sel.Some? && Lawful(c, tx)
    requires AheadCounted(c, s.t, ty, g) && g in c.Eligible(s.t) && g !in tx.Claims()
    ensures g in c.Eligible(Next(s.t, Update(tx))) && AheadCounted(c, Next(s.t, Update(tx)), ty, g)
  {
    var t' := Next(s.t, Update(tx));
    RowAfterCommit(s.t, tx, g);
    forall e | e in c.Eligible(t') + c.Running(t') && e != g ensures StrictlyBefore(t'[g], t'[e]) || e in c.Running(ty.snap) {
      RowAfterCommit(s.t, tx, e);
      if e in tx.Claims() {
        ClaimedRows(c, s, x, e);
      }
      assert e in c.Eligible(s.t) + c.Running(s.t);
    }
  }

  lemma RunsWithin(c: Config, limit: nat, l: Ledger, s: State, a: nat, f: string, b: nat)
    requires Balanced(c, limit, l, s) && a in s.open && b in s.open && l.age[a] < l.age[b] && Alive(c, s.open[a], f)
    ensures a in l.leads ==> c.Running(s.open[b].snap) <= c.Running(s.open[a].snap)
    ensures a !in l.leads ==> c.Running(s.open[b].snap) <= l.budget
  {
    assert PairFine(c, l, a, s.open[a], s.open[b]);
  }

  lemma CoveredYounger(c: Config, limit: nat, l: Ledger, s: State, x: nat, f: string, y: nat, z: nat)
    requires Committing(c, limit, l, s, x, f) && Covers(c, l, s, x, f, y) && z in s.open && l.age[x] < l.age[z]
    ensures c.Running(s.open[z].snap) <= l.budget
  {
    var g := CoveredClaims(c, limit, l, s, x, f, y);
    RunsWithin(c, limit, l, s, y, g, z);
  }

  // Everything that a dequeue younger than x has seen running is in the new budget.
  lemma YoungerWithin(c: Config, limit: nat, l: Ledger, s: State, x: nat, f: string, z: nat)
    requires Committing(c, limit, l, s, x, f) && z in s.open && l.age[x] < l.age[z]
    ensures c.Running(s.open[z].snap) <= LedgerAfter(c, l, s, x, f).budget
  {
    RunsWithin(c, limit, l, s, x, f, z);
    if x in l.leads && BudgetStays(c, l, s, x, f) {
      var y :| Covers(c, l, s, x, f, y);
      CoveredYounger(c, limit, l, s, x, f, y, z);
    }
  }

  // In the eyes of a younger dequeue, the first row of a covering one comes after f.
  lemma CoverIsBehind(c: Config, limit: nat, l: Ledger, s: State, x: nat, f: string, y: nat, g: string, z: nat)
    requires Committing(c, limit, l, s, x, f) && y in s.open && l.age[y] < l.age[x] && Alive(c, s.open[y], g) && g != f
    requires z in s.open && l.age[x] < l.age[z]
    ensures f in s.open[z].snap && g in s.open[z].snap && StrictlyBefore(s.open[z].snap[f], s.open[z].snap[g])
  {
    assert TxFine(c, s.t, l, x, s.open[x]) && TxFine(c, s.t, l, y, s.open[y]);
    AheadOf(c, limit, l, s, x, f, g);
    YoungerSees(c, limit, l, s, x, z, f);
    YoungerSees(c, limit, l, s, y, z, g);
    if g in c.Running(s.open[x].snap) {
      SawItRunning(c, limit, l, s, y, x, g);
    }
  }

  lemma AheadCovered(c: Config, limit: nat, l: Ledger, s: State, x: nat, f: string, y: nat, z: nat, e: string)
    requires Committing(c, limit, l, s, x, f) && Covers(c, l, s, x, f, y) && z in s.open && l.age[x] < l.age[z]
    requires e in c.Eligible(s.open[z].snap) && e != f && f in c.Eligible(s.open[z].snap) && Q.Before(s.open[z].snap[e], s.open[z].snap[f])
    ensures e in l.budget
  {
    var g := CoveredClaims(c, limit, l, s, x, f, y);
    CoverIsBehind(c, limit, l, s, x, f, y, g, z);
    OlderSeesAhead(c, limit, l, s, y, g, z, e);
  }

  // The rows that a younger dequeue has seen ahead of f are in the new budget.
  lemma AheadWithin(c: Config, limit: nat, l: Ledger, s: State, x: nat, f: string, z: nat, e: string)
    requires Committing(c, limit, l, s, x, f) && z in s.open && l.age[x] < l.age[z]
    requires e in c.Eligible(s.open[z].snap) && e != f && f in c.Eligible(s.open[z].snap) && Q.Before(s.open[z].snap[e], s.open[z].snap[f])
    ensures e in LedgerAfter(c, l, s, x, f).budget
  {
    FirstFences(c, limit, l, s, x, f, z, e);
    if x !in l.leads {
      FencedClaims(c, limit, l, s, x, f);
    } else if BudgetStays(c, l, s, x, f) {
      var y :| Covers(c, l, s, x, f, y);
      AheadCovered(c, limit, l, s, x, f, y, z, e);
    }
  }

  lemma FencedByFirst(c: Config, limit: nat, l: Ledger, s: State, x: nat, f: string, z: nat)
    requires Committing(c, limit, l, s, x, f) && z in s.open && l.age[x] < l.age[z]
    ensures Fenced(c, s.open[z].(touched := s.open[z].touched + Q.Ids(s.open[x].Claims())), LedgerAfter(c, l, s, x, f).budget)
  {
    var budget, tz := LedgerAfter(c, l, s, x, f).budget, s.open[z].(touched := s.open[z].touched + Q.Ids(s.open[x].Claims()));
    YoungerWithin(c, limit, l, s, x, f, z);
    OlderSeesAhead(c, limit, l, s, x, f, z, f);
    forall e | e in c.Eligible(tz.snap) && e != f && Q.Before(tz.snap[e], tz.snap[f]) ensures e in budget {
      AheadWithin(c, limit, l, s, x, f, z, e);
    }
    assert Fence(c, tz, budget, f);
  }

  lemma FencedStays(c: Config, tx: Tx, budget: set<string>, ids: set<string>)
    requires Fenced(c, tx, budget)
    ensures Fenced(c, tx.(touched := tx.touched + ids), budget)
  {
    var g :| Fence(c, tx, budget, g);
    assert Fence(c, tx.(touched := tx.touched + ids), budget, g);
  }

  lemma StillLeads(c: Config, l: Ledger, s: State, x: nat, f: string, y: nat)
    requires x in s.open && y in s.open && x != y && s.open[x].sel.Some? && f in c.Running(s.open[y].snap)
    ensures y in LedgerAfter(c, l, s, x, f).leads <==> y in l.leads
  {
  }

  // Either y has seen f running. As a lead it has also counted the claims ...
  lemma LeadCountsClaims(c: Config, limit: nat, l: Ledger, s: State, x: nat, f: string, y: nat, g: string)
    requires Meeting(c, limit, l, s, x, f, y, g) && f in c.Running(s.open[y].snap) && y in l.leads
    ensures c.Running(s.t) + Q.Ids(s.open[x].Claims()) <= c.Running(s.open[y].snap)
  {
    ClaimsWereCounted(c, limit, l, s, x, f, y, g);
    assert Stands(c, s.t, l, y, s.open[y], g) by {
      assert TxFine(c, s.t, l, y, s.open[y]);
    }
  }

  // ... and otherwise the budget stays.
  lemma CoveringStaysFenced(c: Config, limit: nat, l: Ledger, s: State, x: nat, f: string, y: nat, g: string)
    requires Meeting(c, limit, l, s, x, f, y, g) && f in c.Running(s.open[y].snap) && y !in l.leads
    ensures Fenced(c, s.open[y].(touched := s.open[y].touched + Q.Ids(s.open[x].Claims())), LedgerAfter(c, l, s, x, f).budget)
  {
    assert Stands(c, s.t, l, y, s.open[y], g) by {
      assert TxFine(c, s.t, l, y, s.open[y]);
    }
    assert Passed(c, s, x, y);
    assert Covers(c, l, s, x, f, y);
    FencedStays(c, s.open[y], l.budget, Q.Ids(s.open[x].Claims()));
  }

  // Or x is older and fences it.
  lemma PassedStanding(c: Config, limit: nat, l: Ledger, s: State, x: nat, f: string, y: nat, g: string)
    requires Meeting(c, limit, l, s, x, f, y, g) && f !in c.Running(s.open[y].snap)
    ensures var l' := LedgerAfter(c, l, s, x, f);
            y !in l'.leads && Fenced(c, s.open[y].(touched := s.open[y].touched + Q.Ids(s.open[x].Claims())), l'.budget)
  {
    assert Passed(c, s, x, y);
    ClaimantIsOlder(c, limit, l, s, x, f, y, g);
    FencedByFirst(c, limit, l, s, x, f, y);
  }

  // y, alive with first row g after the commit, leads or is fenced.
  lemma StandingAfterCommit(c: Config, limit: nat, l: Ledger, s: State, x: nat, f: string, y: nat, g: string)
    requires Committing(c, limit, l, s, x, f) && y in s.open && y != x && Alive(c, s.open[y], g) && g !in s.open[x].Claims()
    ensures var l' := LedgerAfter(c, l, s, x, f);
            if y in l'.leads then c.Running(s.t) + Q.Ids(s.open[x].Claims()) <= c.Running(s.open[y].snap)
            else Fenced(c, s.open[y].(touched := s.open[y].touched + Q.Ids(s.open[x].Claims())), l'.budget)
  {
    if f in c.Running(s.open[y].snap) {
      StillLeads(c, l, s, x, f, y);
      if y in l.leads {
        LeadCountsClaims(c, limit, l, s, x, f, y, g);
      } else {
        CoveringStaysFenced(c, limit, l, s, x, f, y, g);
      }
    } else {
      PassedStanding(c, limit, l, s, x, f, y, g);
    }
  }

  // ---------- The commit as a whole ----------

  lemma OtherStands(c: Config, limit: nat, l: Ledger, s: State, x: nat, f: string, y: nat, g: string)
    requires Committing(c, limit, l, s, x, f) && y in s.open && y != x && Alive(c, s.open[y], g) && g !in s.open[x].Claims()
    ensures var tx, ty, l' := s.open[x], s.open[y], LedgerAfter(c, l, s, x, f);
            var t', ty' := Next(s.t, Update(tx)), ty.(touched := ty.touched + Q.Ids(tx.Claims()));
            && g in c.Eligible(t') && AheadCounted(c, t', ty, g)
            && if y in l'.leads then c.Running(t') <= c.Running(ty.snap) else Fenced(c, ty', l'.budget)
  {
    assert TxFine(c, s.t, l, y, s.open[y]) && TxFine(c, s.t, l, x, s.open[x]);
    AheadAfterCommit(c, s, x, s.open[x], s.open[y], g);
    StandingAfterCommit(c, limit, l, s, x, f, y, g);
    CommitRunning(c, s.t, s.open[x]);
  }

  lemma AheadSame(c: Config, t: Table, tx: Tx, tx': Tx, f: string)
    requires AheadCounted(c, t, tx, f) && tx'.snap == tx.snap
    ensures AheadCounted(c, t, tx', f)
  {
  }

  lemma OtherStandsTouched(c: Config, limit: nat, l: Ledger, s: State, x: nat, f: string, y: nat, ty': Tx, g: string)
    requires Committing(c, limit, l, s, x, f) && y in s.open && y != x && Alive(c, ty', g)
    requires ty' == s.open[y].(touched := s.open[y].touched + Q.Ids(s.open[x].Claims()))
    ensures Stands(c, Next(s.t, Update(s.open[x])), LedgerAfter(c, l, s, x, f), y, ty', g)
  {
    assert Alive(c, s.open[y], g) && g !in Q.Ids(s.open[x].Claims());
    OtherStands(c, limit, l, s, x, f, y, g);
    AheadSame(c, Next(s.t, Update(s.open[x])), s.open[y], ty', g);
  }

  lemma OtherTxFine(c: Config, limit: nat, l: Ledger, s: State, x: nat, f: string, y: nat, ty': Tx)
    requires Committing(c, limit, l, s, x, f) && y in s.open && y != x
    requires ty' == s.open[y].(touched := s.open[y].touched + Q.Ids(s.open[x].Claims()))
    ensures TxFine(c, Next(s.t, Update(s.open[x])), LedgerAfter(c, l, s, x, f), y, ty')
  {
    forall g | Alive(c, ty', g) ensures Stands(c, Next(s.t, Update(s.open[x])), LedgerAfter(c, l, s, x, f), y, ty', g) {
      OtherStandsTouched(c, limit, l, s, x, f, y, ty', g);
    }
    CommitKeepsKeys(s.t, s.open[x]);
    TxFineFrom(c, s.t, l, y, s.open[y], Next(s.t, Update(s.open[x])), LedgerAfter(c, l, s, x, f), ty');
  }

  lemma CommitKeepsKeys(t: Table, tx: Tx)
    requires tx.sel.Some?
    ensures Next(t, Update(tx)).Keys == t.Keys
  {
  }

  lemma SeenWithin(c: Config, limit: nat, l: Ledger, s: State, x: nat, f: string, y: nat, g: string, z: nat)
    requires Committing(c, limit, l, s, x, f) && y in s.open && y != x && Alive(c, s.open[y], g) && g !in s.open[x].Claims()
    requires z in s.open && z != x && l.age[y] < l.age[z]
    ensures var l' := LedgerAfter(c, l, s, x, f);
            c.Running(s.open[z].snap) <= if y in l'.leads then c.Running(s.open[y].snap) else l'.budget
  {
    RunsWithin(c, limit, l, s, y, g, z);
    assert Passed(c, s, x, y);
    if f in c.Running(s.open[y].snap) {
      assert y !in l.leads ==> Covers(c, l, s, x, f, y);
    } else {
      ClaimantIsOlder(c, limit, l, s, x, f, y, g);
      YoungerWithin(c, limit, l, s, x, f, z);
    }
  }

  lemma OtherPairFine(c: Config, limit: nat, l: Ledger, s: State, x: nat, f: string, y: nat, z: nat)
    requires Committing(c, limit, l, s, x, f) && y in s.open && z in s.open && y != x && z != x && l.age[y] < l.age[z]
    ensures var claims := Q.Ids(s.open[x].Claims());
            PairFine(c, LedgerAfter(c, l, s, x, f), y, s.open[y].(touched := s.open[y].touched + claims),
                     s.open[z].(touched := s.open[z].touched + claims))
  {
    var claims := Q.Ids(s.open[x].Claims());
    var ty' := s.open[y].(touched := s.open[y].touched + claims);
    assert PairFine(c, l, y, s.open[y], s.open[z]);
    forall g | Alive(c, ty', g)
      ensures g in c.Eligible(s.open[z].snap) && AheadCounted(c, s.open[z].snap, ty', g)
      ensures var l' := LedgerAfter(c, l, s, x, f);
              c.Running(s.open[z].snap) <= if y in l'.leads then c.Running(ty'.snap) else l'.budget
    {
      assert Alive(c, s.open[y], g) && g !in claims;
      SeenWithin(c, limit, l, s, x, f, y, g, z);
    }
  }

  lemma CommitBalances(c: Config, limit: nat, l: Ledger, s: State, x: nat, f: string)
    requires Committing(c, limit, l, s, x, f) && Possible(c, s, Commit(x))
    ensures Balanced(c, limit, LedgerAfter(c, l, s, x, f), NextState(c, s, Commit(x)))
  {
    var s', l', tx := NextState(c, s, Commit(x)), LedgerAfter(c, l, s, x, f), s.open[x];
    EventKeeps(c, s, Commit(x));
    BudgetHolds(c, limit, l, s, x, f);
    CommitRunning(c, s.t, tx);
    forall y | y in s'.open ensures TxFine(c, s'.t, l', y, s'.open[y]) {
      OtherTxFine(c, limit, l, s, x, f, y, s'.open[y]);
    }
    forall y, z | y in s'.open && z in s'.open && l'.age[y] < l'.age[z] ensures PairFine(c, l', y, s'.open[y], s'.open[z]) {
      OtherPairFine(c, limit, l, s, x, f, y, z);
    }
  }

  // ---------- Other events ----------

  // Leaving without a claim.
  function Without(l: Ledger, x: nat): Ledger {
    l.(age := l.age - {x})
  }

  lemma LeaveTxFine(c: Config, limit: nat, l: Ledger, s: State, x: nat, y: nat)
    requires Balanced(c, limit, l, s) && y in s.open
    ensures TxFine(c, s.t, Without(l, x), y, s.open[y])
  {
    LedgerSame(c, s.t, l, Without(l, x), y, s.open[y]);
  }

  lemma LeavePairFine(c: Config, limit: nat, l: Ledger, s: State, x: nat, y: nat, z: nat)
    requires Balanced(c, limit, l, s) && y in s.open && z in s.open && l.age[y] < l.age[z]
    ensures PairFine(c, Without(l, x), y, s.open[y], s.open[z])
  {
    LedgerSamePair(c, l, Without(l, x), y, s.open[y], s.open[z]);
  }

  lemma LeaveBalances(c: Config, limit: nat, l: Ledger, s: State, x: nat)
    requires Balanced(c, limit, l, s) && x in s.open
    ensures Balanced(c, limit, Without(l, x), s.(open := s.open - {x}))
  {
    var s', l' := s.(open := s.open - {x}), Without(l, x);
    forall y | y in s'.open ensures TxFine(c, s'.t, l', y, s'.open[y]) {
      LeaveTxFine(c, limit, l, s, x, y);
    }
    forall y, z | y in s'.open && z in s'.open && l'.age[y] < l'.age[z] ensures PairFine(c, l', y, s'.open[y], s'.open[z]) {
      LeavePairFine(c, limit, l, s, x, y, z);
    }
  }

  lemma EmptyCommit(c: Config, s: State, x: nat)
    requires Possible(c, s, Commit(x)) && |s.open[x].Claims()| == 0
    ensures NextState(c, s, Commit(x)) == s.(open := s.open - {x})
  {
    CommitNothing(c, s.t, s.open[x]);
    forall y | y in s.open ensures s.open[y].(touched := s.open[y].touched + Q.Ids(s.open[x].Claims())) == s.open[y] {
    }
  }

  lemma AnyCommitBalances(c: Config, limit: nat, l: Ledger, s: State, x: nat) returns (l': Ledger)
    requires Balanced(c, limit, l, s) && Possible(c, s, Commit(x))
    ensures Balanced(c, limit, l', NextState(c, s, Commit(x)))
  {
    if |s.open[x].Claims()| == 0 {
      EmptyCommit(c, s, x);
      LeaveBalances(c, limit, l, s, x);
      l' := Without(l, x);
    } else {
      var f := Claimant(c, limit, l, s, x);
      CommitBalances(c, limit, l, s, x, f);
      l' := LedgerAfter(c, l, s, x, f);
    }
  }

  lemma RowBefore(c: Config, t: Table, op: Op, tx: Tx, f: string, e: string)
    requires Enabled(op) && (op.Claim? ==> forall id | id in op.ids && id in t :: !Q.InScope(t[id], c.Target()))
    requires !Harmless(c, tx) && IsFirst(c, tx.snap, f) && f !in tx.touched && Unchanged(t, Next(t, op), f)
    requires Returning(c, op) || BehindOrCounted(c, t, Next(t, op), tx)
    requires e in c.Eligible(Next(t, op)) + c.Running(Next(t, op)) && e != f
    ensures e in c.Running(tx.snap) || StrictlyBefore(t[f], Next(t, op)[e])
            || (e in c.Eligible(t) + c.Running(t) && Next(t, op)[e].priority == t[e].priority && Next(t, op)[e].createdAt == t[e].createdAt)
  {
    var t' := Next(t, op);
    if !Unchanged(t, t', e) {
      if e in c.Running(t') {
        OtherRunning(c, t, op);
        RowKeepsOrder(op, e, t[e]);
      } else if Returning(c, op) {
        RowKeepsOrder(op, e, t[e]);
        RecoveredRan(c, op, e, t[e]);
      }
    }
  }

  // A row that a recovery puts on the queue was running on it.
  lemma RecoveredRan(c: Config, op: Op, e: string, row: Row)
    requires Returning(c, op) && Q.InScope(NextRow(op, e, row), c.Target()) && NextRow(op, e, row) != row
    ensures row.status.Pending? && Q.InScope(row, c.Target())
  {
  }

  lemma AheadAfterOther(c: Config, t: Table, op: Op, tx: Tx, f: string)
    requires Enabled(op) && (op.Claim? ==> forall id | id in op.ids && id in t :: !Q.InScope(t[id], c.Target()))
    requires Alive(c, tx, f) && Unchanged(t, Next(t, op), f) && (Returning(c, op) || BehindOrCounted(c, t, Next(t, op), tx))
    requires f in c.Eligible(t) && AheadCounted(c, t, tx, f)
    ensures f in c.Eligible(Next(t, op)) && AheadCounted(c, Next(t, op), tx, f)
  {
    var t' := Next(t, op);
    forall e | e in c.Eligible(t') + c.Running(t') && e != f ensures StrictlyBefore(t'[f], t'[e]) || e in c.Running(tx.snap) {
      RowBefore(c, t, op, tx, f, e);
    }
  }

  lemma StandsAfterOther(c: Config, l: Ledger, s: State, op: Op, y: nat, ty': Tx, g: string)
    requires Possible(c, s, Other(op)) && CalmEvent(c, s, Other(op)) && y in s.open && TxFine(c, s.t, l, y, s.open[y])
    requires ty' == s.open[y].(touched := s.open[y].touched + Changed(s.t, op)) && Alive(c, ty', g)
    ensures Stands(c, Next(s.t, op), l, y, ty', g)
  {
    var ty := s.open[y];
    assert Alive(c, ty, g) && g !in Changed(s.t, op) && Stands(c, s.t, l, y, ty, g);
    AheadAfterOther(c, s.t, op, ty, g);
    AheadSame(c, Next(s.t, op), ty, ty', g);
    OtherRunning(c, s.t, op);
    if y !in l.leads {
      FencedStays(c, ty, l.budget, Changed(s.t, op));
    }
  }

  lemma TxFineAfterOther(c: Config, l: Ledger, s: State, op: Op, y: nat, ty': Tx)
    requires Possible(c, s, Other(op)) && CalmEvent(c, s, Other(op)) && y in s.open && TxFine(c, s.t, l, y, s.open[y])
    requires ty' == s.open[y].(touched := s.open[y].touched + Changed(s.t, op))
    ensures TxFine(c, Next(s.t, op), l, y, ty')
  {
    forall g | Alive(c, ty', g) ensures Stands(c, Next(s.t, op), l, y, ty', g) {
      StandsAfterOther(c, l, s, op, y, ty', g);
    }
    TxFineFrom(c, s.t, l, y, s.open[y], Next(s.t, op), l, ty');
  }

  lemma PairFineTouched(c: Config, l: Ledger, x: nat, tx: Tx, ty: Tx, ids: set<string>)
    requires PairFine(c, l, x, tx, ty)
    ensures PairFine(c, l, x, tx.(touched := tx.touched + ids), ty.(touched := ty.touched + ids))
  {
    var tx' := tx.(touched := tx.touched + ids);
    forall f | Alive(c, tx', f) ensures f in c.Eligible(ty.snap) && AheadCounted(c, ty.snap, tx', f) {
      assert Alive(c, tx, f);
      AheadSame(c, ty.snap, tx, tx', f);
    }
    assert forall f | Alive(c, tx', f) :: Alive(c, tx, f);
  }

  lemma OtherBalances(c: Config, limit: nat, l: Ledger, s: State, op: Op)
    requires Balanced(c, limit, l, s) && Possible(c, s, Other(op)) && CalmEvent(c, s, Other(op)) && Ok(c, NextState(c, s, Other(op)))
    ensures Balanced(c, limit, l, NextState(c, s, Other(op)))
  {
    var s' := NextState(c, s, Other(op));
    assert c.Running(s'.t) <= l.budget by {
      OtherRunning(c, s.t, op);
    }
    forall y | y in s'.open ensures TxFine(c, s'.t, l, y, s'.open[y]) {
      TxFineAfterOther(c, l, s, op, y, s'.open[y]);
    }
    forall y, z | y in s'.open && z in s'.open && l.age[y] < l.age[z] ensures PairFine(c, l, y, s'.open[y], s'.open[z]) {
      PairFineTouched(c, l, y, s.open[y], s.open[z], Changed(s.t, op));
    }
  }

  lemma {:induction false} Youngest(age: map<nat, nat>, ids: set<nat>) returns (n: nat)
    requires ids <= age.Keys
    ensures forall x | x in ids :: age[x] < n
    decreases ids
  {
    if ids == {} {
      n := 0;
    } else {
      var x :| x in ids;
      n := Youngest(age, ids - {x});
      n := if age[x] < n then n else age[x] + 1;
    }
  }

  lemma NewTxFine(c: Config, t: Table, l: Ledger, x: nat, d: Q.Dequeue)
    requires (d.Refused(t) || NoTieForFirst(c, t)) && x in l.leads
    ensures TxFine(c, t, l, x, Tx(d, t, {}, None))
  {
  }

  lemma NewPairFine(c: Config, limit: nat, l: Ledger, s: State, y: nat, d: Q.Dequeue)
    requires Balanced(c, limit, l, s) && y in s.open
    ensures PairFine(c, l, y, s.open[y], Tx(d, s.t, {}, None))
  {
    assert TxFine(c, s.t, l, y, s.open[y]);
  }

  // A lead or a fence that does not concern the transaction does not matter to it.
  lemma LedgerSame(c: Config, t: Table, l: Ledger, l': Ledger, y: nat, ty: Tx)
    requires TxFine(c, t, l, y, ty) && l'.budget == l.budget && (y in l'.leads <==> y in l.leads)
    ensures TxFine(c, t, l', y, ty)
  {
  }

  lemma LedgerSamePair(c: Config, l: Ledger, l': Ledger, y: nat, ty: Tx, tz: Tx)
    requires PairFine(c, l, y, ty, tz) && l'.budget == l.budget && (y in l'.leads <==> y in l.leads)
    ensures PairFine(c, l', y, ty, tz)
  {
  }

  lemma BeginBalances(c: Config, limit: nat, l: Ledger, s: State, x: nat, d: Q.Dequeue) returns (l': Ledger)
    requires Balanced(c, limit, l, s) && Possible(c, s, Begin(x, d)) && CalmEvent(c, s, Begin(x, d))
    ensures Balanced(c, limit, l', NextState(c, s, Begin(x, d)))
  {
    var s', tx := NextState(c, s, Begin(x, d)), Tx(d, s.t, {}, None);
    EventKeeps(c, s, Begin(x, d));
    var n := Youngest(l.age, l.age.Keys);
    l' := Ledger(l.budget, l.age[x := n], l.leads + {x});
    forall y | y in s'.open ensures TxFine(c, s'.t, l', y, s'.open[y]) {
      if y == x {
        NewTxFine(c, s.t, l', x, d);
      } else {
        LedgerSame(c, s.t, l, l', y, s.open[y]);
      }
    }
    forall y, z | y in s'.open && z in s'.open && l'.age[y] < l'.age[z] ensures PairFine(c, l', y, s'.open[y], s'.open[z]) {
      if z == x {
        NewPairFine(c, limit, l, s, y, d);
        LedgerSamePair(c, l, l', y, s.open[y], tx);
      } else {
        LedgerSamePair(c, l, l', y, s.open[y], s.open[z]);
      }
    }
  }

  // The same transactions, some with their rows locked.
  lemma SelectionsBalance(c: Config, limit: nat, l: Ledger, s: State, s': State)
    requires Balanced(c, limit, l, s) && Ok(c, s') && s'.t == s.t && s'.open.Keys == s.open.Keys
    requires forall y | y in s.open :: SameButSel(s.open[y], s'.open[y]) && Lawful(c, s'.open[y])
    ensures Balanced(c, limit, l, s')
  {
    forall y | y in s'.open ensures TxFine(c, s'.t, l, y, s'.open[y]) {
      SelDoesNotMatter(c, s.t, l, y, s.open[y], s'.open[y]);
    }
    forall y, z | y in s'.open && z in s'.open && l.age[y] < l.age[z] ensures PairFine(c, l, y, s'.open[y], s'.open[z]) {
      SelDoesNotMatterInPair(c, l, y, s.open[y], s.open[z], s'.open[y], s'.open[z]);
    }
  }

  lemma LockLawful(c: Config, s: State, x: nat, sel: seq<string>)
    requires c.queue.concurrency.Some? && Possible(c, s, Lock(x, sel))
    ensures Lawful(c, s.open[x].(sel := Some(sel)))
  {
  }

  lemma LockSame(c: Config, limit: nat, l: Ledger, s: State, x: nat, sel: seq<string>, y: nat, s': State)
    requires Balanced(c, limit, l, s) && Possible(c, s, Lock(x, sel)) && y in s.open && s' == NextState(c, s, Lock(x, sel))
    ensures y in s'.open && SameButSel(s.open[y], s'.open[y]) && Lawful(c, s'.open[y])
  {
    if y == x {
      LockLawful(c, s, x, sel);
    } else {
      assert TxFine(c, s.t, l, y, s.open[y]);
    }
  }

  lemma LockBalances(c: Config, limit: nat, l: Ledger, s: State, x: nat, sel: seq<string>, s': State)
    requires Balanced(c, limit, l, s) && Possible(c, s, Lock(x, sel)) && s' == NextState(c, s, Lock(x, sel))
    requires Ok(c, s') && s'.t == s.t && s'.open.Keys == s.open.Keys
    ensures Balanced(c, limit, l, s')
  {
    forall y | y in s.open ensures SameButSel(s.open[y], s'.open[y]) && Lawful(c, s'.open[y]) {
      LockSame(c, limit, l, s, x, sel, y, s');
    }
    SelectionsBalance(c, limit, l, s, s');
  }

  lemma SelDoesNotMatter(c: Config, t: Table, l: Ledger, y: nat, ty: Tx, ty': Tx)
    requires TxFine(c, t, l, y, ty) && SameButSel(ty, ty') && Lawful(c, ty')
    ensures TxFine(c, t, l, y, ty')
  {
    forall g | Alive(c, ty', g) ensures Stands(c, t, l, y, ty', g) {
      assert Alive(c, ty, g) && Stands(c, t, l, y, ty, g);
      AheadSame(c, t, ty, ty', g);
      if y !in l.leads {
        var h :| Fence(c, ty, l.budget, h);
        assert Fence(c, ty', l.budget, h);
      }
    }
    TxFineFrom(c, t, l, y, ty, t, l, ty');
  }

  lemma SelDoesNotMatterInPair(c: Config, l: Ledger, y: nat, ty: Tx, tz: Tx, ty': Tx, tz': Tx)
    requires PairFine(c, l, y, ty, tz) && SameButSel(ty, ty') && SameButSel(tz, tz')
    ensures PairFine(c, l, y, ty', tz')
  {
    forall g | Alive(c, ty', g) ensures Alive(c, ty, g) {
    }
  }

  lemma AnyLockBalances(c: Config, limit: nat, l: Ledger, s: State, x: nat, sel: seq<string>)
    requires Balanced(c, limit, l, s) && Possible(c, s, Lock(x, sel))
    ensures Balanced(c, limit, l, NextState(c, s, Lock(x, sel)))
  {
    LockKeeps(c, s, x, sel);
    LockBalances(c, limit, l, s, x, sel, NextState(c, s, Lock(x, sel)));
  }

  lemma AbortBalances(c: Config, limit: nat, l: Ledger, s: State, x: nat) returns (l': Ledger)
    requires Balanced(c, limit, l, s) && Possible(c, s, Abort(x))
    ensures Balanced(c, limit, l', NextState(c, s, Abort(x)))
  {
    LeaveBalances(c, limit, l, s, x);
    l' := Without(l, x);
  }

  lemma AnyOtherBalances(c: Config, limit: nat, l: Ledger, s: State, op: Op)
    requires Balanced(c, limit, l, s) && Possible(c, s, Other(op)) && CalmEvent(c, s, Other(op))
    ensures Balanced(c, limit, l, NextState(c, s, Other(op)))
  {
    OtherKeeps(c, s, op);
    OtherBalances(c, limit, l, s, op);
  }

  lemma EventBalances(c: Config, limit: nat, l: Ledger, s: State, ev: Event) returns (l': Ledger)
    requires Balanced(c, limit, l, s) && Possible(c, s, ev) && CalmEvent(c, s, ev)
    ensures Balanced(c, limit, l', NextState(c, s, ev))
  {
    match ev
    case Begin(x, d) => l' := BeginBalances(c, limit, l, s, x, d);
    case Lock(x, sel) =>
      AnyLockBalances(c, limit, l, s, x, sel);
      l' := l;
    case Commit(x) => l' := AnyCommitBalances(c, limit, l, s, x);
    case Abort(x) => l' := AbortBalances(c, limit, l, s, x);
    case Other(op) =>
      AnyOtherBalances(c, limit, l, s, op);
      l' := l;
  }

  lemma {:induction false} StaysBalanced(c: Config, limit: nat, l: Ledger, s: State, evs: seq<Event>) returns (l': Ledger)
    requires Balanced(c, limit, l, s) && History(c, s, evs) && Calm(c, s, evs)
    ensures Balanced(c, limit, l', Run(c, s, evs))
    decreases |evs|
  {
    if |evs| == 0 {
      l' := l;
    } else {
      var m := EventBalances(c, limit, l, s, evs[0]);
      l' := StaysBalanced(c, limit, m, NextState(c, s, evs[0]), evs[1..]);
    }
  }

  // Every orderly interleaving is calm.
  lemma {:induction false} OrderlyIsCalm(c: Config, s: State, evs: seq<Event>)
    requires History(c, s, evs) && Orderly(c, s, evs)
    ensures Calm(c, s, evs)
    decreases |evs|
  {
    if |evs| > 0 {
      OrderlyIsCalm(c, NextState(c, s, evs[0]), evs[1..]);
    }
  }

  /**
  Snapshot dequeues keep the global limit also while running workflows are recovered ahead of waiting ones, at any time:
  only rows that an open dequeue has not counted must not overtake its first row.
  */
  lemma LimitHoldsWithRecoveries(c: Config, limit: nat, s: State, evs: seq<Event>)
    requires c.queue.concurrency == Some(limit) && s.open == map[] && |c.Running(s.t)| <= limit && History(c, s, evs) && Calm(c, s, evs)
    ensures |c.Running(Run(c, s, evs).t)| <= limit
  {
    var l := StaysBalanced(c, limit, Ledger(c.Running(s.t), map[], {}), s, evs);
    SubsetSize(c.Running(Run(c, s, evs).t), l.budget);
  }
}
