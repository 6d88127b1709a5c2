/**
Crash consistency of a user transaction over two databases.

A data source commits the user's writes together with a `transaction_completion` row in the application
database. The checkpoint in the system database's `operation_outputs` is a later, separate transaction. A
workflow has one live run at a time, so a step (a workflow and a function ID) has at most one live execution;
the process can crash between any two database operations, and the step is executed again later.
*/
module TwoStore {
  import opened Common

  datatype Phase =
    | SysCheck                                    // look for the checkpoint in the system database
    | AppCheck                                    // look for the completion row in the application database
    | InTransaction                               // the user's transaction is open
    | AppError(error: string)                     // the transaction rolled back; its error is being recorded
    | SysRecord(outcome: Outcome)                 // the outcome is known; the checkpoint is being written

  const CONFLICT := "DBOSWorkflowConflictError"

  datatype State = State(
    readOnly: set<StepKey>,              // steps whose transaction is configured read-only
    completions: map<StepKey, Outcome>,  // transaction_completion, in the application database
    checkpoints: map<StepKey, Outcome>,  // operation_outputs, in the system database
    live: map<StepKey, Phase>,
    effects: seq<(StepKey, string)>,     // committed read-write user transactions, with the value each returned
    replies: seq<(StepKey, Outcome)>)    // what each execution gave the workflow body

  datatype Op =
    | Begin(key: StepKey)
    | CheckSystem(key: StepKey)
    | CheckApplication(key: StepKey)
    | Commit(key: StepKey, value: string, lost: Option<string>)  // `lost`: the error the client saw instead of the acknowledgement
    | Serialization(key: StepKey)                                // error 40001: the loop tries again
    | Rollback(key: StepKey, error: string)
    | RecordError(key: StepKey, ownCancellation: bool)
    | Checkpoint(key: StepKey, acknowledged: bool)
    | Crash(key: StepKey)

  predicate Enabled(s: State, op: Op) {
    match op
    case Begin(k) => k !in s.live
    case CheckSystem(k) => k in s.live && s.live[k].SysCheck?
    case CheckApplication(k) => k in s.live && s.live[k].AppCheck?
    case Commit(k, _, _) => k in s.live && s.live[k].InTransaction?
    case Serialization(k) => k in s.live && s.live[k].InTransaction?
    case Rollback(k, _) => k in s.live && s.live[k].InTransaction?
    case RecordError(k, _) => k in s.live && s.live[k].AppError?
    case Checkpoint(k, _) => k in s.live && s.live[k].SysRecord?
    case Crash(k) => k in s.live
  }

  function Goto(s: State, k: StepKey, p: Phase): State {
    s.(live := s.live[k := p])
  }

  function Reply(s: State, k: StepKey, o: Outcome): State {
    s.(live := s.live - {k}, replies := s.replies + [(k, o)])
  }

  // The user's writes and the completion row commit together. A row already there makes the insert fail,
  // which rolls everything back and sends the conflict down the error path.
  function CommitStep(s: State, k: StepKey, value: string, lost: Option<string>): State {
    var after := if lost.Some? then AppError(lost.value) else SysRecord(Returned(value));
    if k in s.readOnly then Goto(s, k, if lost.Some? then SysRecord(Threw(lost.value)) else after)
    else if k in s.completions then Goto(s, k, AppError(CONFLICT))
    else Goto(s, k, after).(completions := s.completions[k := Returned(value)], effects := s.effects + [(k, value)])
  }

  function Next(s: State, op: Op): State
    requires Enabled(s, op)
  {
    match op
    case Begin(k) => Goto(s, k, SysCheck)
    case CheckSystem(k) =>
      if k in s.checkpoints then Reply(s, k, s.checkpoints[k])
      else Goto(s, k, if k in s.readOnly then InTransaction else AppCheck)
    case CheckApplication(k) =>
      Goto(s, k, if k in s.completions then SysRecord(s.completions[k]) else InTransaction)
    case Commit(k, v, lost) => CommitStep(s, k, v, lost)
    case Serialization(k) => Goto(s, k, if k in s.readOnly then InTransaction else AppCheck)
    case Rollback(k, e) => Goto(s, k, if k in s.readOnly then SysRecord(Threw(e)) else AppError(e))
    case RecordError(k, own) =>
      var e := s.live[k].error;
      if k in s.completions then Goto(s, k, SysRecord(Threw(CONFLICT)))
      else
        var s' := s.(completions := s.completions[k := Threw(e)]);
        if own then s'.(live := s'.live - {k}) else Goto(s', k, SysRecord(Threw(e)))
    case Checkpoint(k, ack) =>
      var o := s.live[k].outcome;
      var s' := if k in s.checkpoints then s else s.(checkpoints := s.checkpoints[k := o]);
      if ack then Reply(s', k, o) else s'
    case Crash(k) => s.(live := s.live - {k})
  }

  predicate Trace(s: State, ops: seq<Op>)
    decreases |ops|
  {
    |ops| == 0 || (Enabled(s, ops[0]) && Trace(Next(s, ops[0]), ops[1..]))
  }

  function Exec(s: State, ops: seq<Op>): State
    requires Trace(s, ops)
    decreases |ops|
  {
    if |ops| == 0 then s else Exec(Next(s, ops[0]), ops[1..])
  }

  // Processes crash, but no commit of this step's transaction loses its acknowledgement.
  predicate Acknowledged(ops: seq<Op>, k: StepKey) {
    forall op | op in ops :: op.Commit? && op.key == k ==> op.lost.None?
  }

  predicate Initial(s: State) {
    s.completions == map[] && s.checkpoints == map[] && s.live == map[] && s.effects == [] && s.replies == []
  }

  predicate Extends(a: map<StepKey, Outcome>, b: map<StepKey, Outcome>) {
    forall k | k in a :: k in b && b[k] == a[k]
  }

  // ---------- What every operation keeps ----------

  // The committed effects of a step are exactly what its completion row says, and there is at most one.
  predicate EffectsMatch(s: State) {
    && (forall i | 0 <= i < |s.effects| ::
          s.effects[i].0 in s.completions && s.completions[s.effects[i].0] == Returned(s.effects[i].1))
    && (forall i, j | 0 <= i < j < |s.effects| :: s.effects[i].0 != s.effects[j].0)
    && (forall k | k in s.completions :: s.completions[k].Returned? ==> (k, s.completions[k].value) in s.effects)
  }

  lemma EffectAppended(s: State, k: StepKey, v: string)
    requires EffectsMatch(s) && k !in s.completions
    ensures EffectsMatch(s.(completions := s.completions[k := Returned(v)], effects := s.effects + [(k, v)]))
  {
    var effects := s.effects + [(k, v)];
    assert effects[|s.effects|] == (k, v);
    forall j | j in s.completions && s.completions[j].Returned? ensures (j, s.completions[j].value) in effects {
    }
  }

  lemma EffectsKept(s: State, op: Op)
    requires Enabled(s, op) && EffectsMatch(s)
    ensures EffectsMatch(Next(s, op))
  {
    if op.Commit? && op.key !in s.readOnly && op.key !in s.completions {
      EffectAppended(s, op.key, op.value);
    }
  }

  lemma StoresGrow(s: State, op: Op)
    requires Enabled(s, op)
    ensures Extends(s.completions, Next(s, op).completions) && Extends(s.checkpoints, Next(s, op).checkpoints)
  {
  }

  lemma {:induction false} EffectsAlwaysMatch(s: State, ops: seq<Op>)
    requires Trace(s, ops) && EffectsMatch(s)
    ensures EffectsMatch(Exec(s, ops))
    decreases |ops|
  {
    if |ops| > 0 {
      EffectsKept(s, ops[0]);
      EffectsAlwaysMatch(Next(s, ops[0]), ops[1..]);
    }
  }

  // A live execution has a checkpoint only if it wrote it, or is about to return it; in its transaction it has no completion row.
  predicate PhaseOk(s: State, k: StepKey) {
    k in s.live ==>
      match s.live[k]
      case SysCheck => true
      case AppCheck => k !in s.checkpoints && k !in s.readOnly
      case InTransaction => k !in s.checkpoints && (k !in s.readOnly ==> k !in s.completions)
      case AppError(_) => k !in s.checkpoints && k !in s.readOnly
      case SysRecord(o) => k in s.checkpoints ==> s.checkpoints[k] == o
  }

  // Whatever an execution gave the body is in the system database.
  predicate Replied(s: State, k: StepKey) {
    forall i | 0 <= i < |s.replies| && s.replies[i].0 == k :: k in s.checkpoints && s.checkpoints[k] == s.replies[i].1
  }

  lemma RepliesKept(s: State, op: Op, k: StepKey)
    requires Enabled(s, op) && PhaseOk(s, k) && Replied(s, k)
    ensures PhaseOk(Next(s, op), k) && Replied(Next(s, op), k)
  {
  }

  lemma {:induction false} RepliesAlwaysKept(s: State, ops: seq<Op>, k: StepKey)
    requires Trace(s, ops) && PhaseOk(s, k) && Replied(s, k)
    ensures PhaseOk(Exec(s, ops), k) && Replied(Exec(s, ops), k)
    decreases |ops|
  {
    if |ops| > 0 {
      RepliesKept(s, ops[0], k);
      RepliesAlwaysKept(Next(s, ops[0]), ops[1..], k);
    }
  }

  // ---------- What acknowledged commits keep ----------

  // The application database knows of everything that the system database, or a live execution, takes for done.
  predicate StoresMatch(s: State, k: StepKey) {
    && (k in s.completions ==> k !in s.readOnly)
    && (k !in s.readOnly && k in s.checkpoints ==> k in s.completions && s.completions[k] == s.checkpoints[k])
    && (k !in s.readOnly && k in s.live ==>
          match s.live[k]
          case AppError(_) => k !in s.completions
          case SysRecord(o) => k in s.completions && s.completions[k] == o
          case _ => true)
  }

  lemma StoresKept(s: State, op: Op, k: StepKey)
    requires Enabled(s, op) && PhaseOk(s, k) && StoresMatch(s, k) && (op.Commit? && op.key == k ==> op.lost.None?)
    ensures StoresMatch(Next(s, op), k)
  {
  }

  lemma {:induction false} StoresAlwaysMatch(s: State, ops: seq<Op>, k: StepKey)
    requires Trace(s, ops) && PhaseOk(s, k) && Replied(s, k) && StoresMatch(s, k) && Acknowledged(ops, k)
    ensures StoresMatch(Exec(s, ops), k)
    decreases |ops|
  {
    if |ops| > 0 {
      assert ops[0] in ops;
      StoresKept(s, ops[0], k);
      RepliesKept(s, ops[0], k);
      StoresAlwaysMatch(Next(s, ops[0]), ops[1..], k);
    }
  }

  // ---------- Main results ----------

  function CommitCount(effects: seq<(StepKey, string)>, k: StepKey): nat {
    if |effects| == 0 then 0 else (if effects[0].0 == k then 1 else 0) + CommitCount(effects[1..], k)
  }

  lemma {:induction false} DistinctCommitsOnce(effects: seq<(StepKey, string)>, k: StepKey)
    requires forall i, j | 0 <= i < j < |effects| :: effects[i].0 != effects[j].0
    ensures CommitCount(effects, k) <= 1
    ensures CommitCount(effects, k) == 1 <==> exists i :: 0 <= i < |effects| && effects[i].0 == k
  {
    if |effects| > 0 {
      DistinctCommitsOnce(effects[1..], k);
      if i :| 0 <= i < |effects[1..]| && effects[1..][i].0 == k {
        assert effects[i + 1].0 == k;
      }
    }
  }

  /**
  Exactly once: whatever crashes, lost acknowledgements and re-executions happen, a read-write transaction commits at
  most once per step, and it has committed exactly when the completion row holds a value; a recorded error means that
  nothing was committed.
  */
  lemma ExactlyOnce(s: State, ops: seq<Op>, k: StepKey)
    requires Initial(s) && Trace(s, ops)
    ensures var e := Exec(s, ops);
            && CommitCount(e.effects, k) <= 1
            && (CommitCount(e.effects, k) == 1 <==> k in e.completions && e.completions[k].Returned?)
  {
    EffectsAlwaysMatch(s, ops);
    var e := Exec(s, ops);
    DistinctCommitsOnce(e.effects, k);
    if k in e.completions && e.completions[k].Returned? {
      var i :| 0 <= i < |e.effects| && e.effects[i] == (k, e.completions[k].value);
      assert e.effects[i].0 == k;
    }
  }

  /** Every execution of a step gave the body what the system database holds, so all of them gave the same. */
  lemma RepliesAgree(s: State, ops: seq<Op>, k: StepKey)
    requires Initial(s) && Trace(s, ops)
    ensures var e := Exec(s, ops);
            && (forall i | 0 <= i < |e.replies| && e.replies[i].0 == k :: k in e.checkpoints && e.checkpoints[k] == e.replies[i].1)
            && (forall i, j | 0 <= i < |e.replies| && 0 <= j < |e.replies| && e.replies[i].0 == k && e.replies[j].0 == k ::
                  e.replies[i].1 == e.replies[j].1)
  {
    RepliesAlwaysKept(s, ops, k);
  }

  /** For a step whose own commits are acknowledged the two stores agree, and so does everything the body was given. */
  lemma StoresAndRepliesAgree(s: State, ops: seq<Op>, k: StepKey)
    requires Initial(s) && Trace(s, ops) && Acknowledged(ops, k) && k !in Exec(s, ops).readOnly
    ensures var e := Exec(s, ops);
            && (k in e.checkpoints ==> k in e.completions && e.completions[k] == e.checkpoints[k])
            && (forall i | 0 <= i < |e.replies| && e.replies[i].0 == k :: k in e.completions && e.completions[k] == e.replies[i].1)
  {
    RepliesAlwaysKept(s, ops, k);
    StoresAlwaysMatch(s, ops, k);
  }

  /** Once recorded in either store, an outcome is never replaced there, from any state onwards. */
  lemma {:induction false} RecordedForever(s: State, ops: seq<Op>)
    requires Trace(s, ops)
    ensures Extends(s.completions, Exec(s, ops).completions) && Extends(s.checkpoints, Exec(s, ops).checkpoints)
    decreases |ops|
  {
    if |ops| > 0 {
      StoresGrow(s, ops[0]);
      RecordedForever(Next(s, ops[0]), ops[1..]);
    }
  }

  // ---------- A lost commit acknowledgement ----------

  // The rest of an execution that is not interrupted, from its commit to the checkpoint.
  function Finished(s: State, k: StepKey, value: string, lost: Option<string>): State
    requires PhaseOk(s, k) && k in s.live && s.live[k].InTransaction? && k !in s.readOnly
  {
    var s1 := Next(s, Commit(k, value, lost));
    var s2 := if lost.Some? then Next(s1, RecordError(k, false)) else s1;
    Next(s2, Checkpoint(k, true))
  }

  /**
  The exact condition under which an uninterrupted execution leaves the stores in agreement: its commit was
  acknowledged. Otherwise the handler takes the lost acknowledgement for a failed transaction, its error row
  meets the completion row, and the system database records a conflict for a step that committed.
  */
  lemma AgreesExactlyWhenAcknowledged(s: State, k: StepKey, value: string, lost: Option<string>)
    requires PhaseOk(s, k) && k in s.live && s.live[k].InTransaction? && k !in s.readOnly
    ensures var e := Finished(s, k, value, lost);
            && k in e.completions && k in e.checkpoints && e.completions[k] == Returned(value)
            && (e.checkpoints[k] == e.completions[k] <==> lost.None?)
            && (lost.Some? ==> e.checkpoints[k] == Threw(CONFLICT))
  {
  }

  // ---------- The data source's method ----------

  // How one attempt of the user's transaction would end.
  datatype Attempt = Commits(value: string) | Retriable | Fails(error: string)

  class ApplicationDatabase {
    var completions: map<StepKey, Outcome>
    var effects: seq<(Option<StepKey>, string)>

    constructor ()
      ensures completions == map[] && effects == []
    {
      completions := map[];
      effects := [];
    }

    /**
    The retry loop. `step` is absent outside a workflow; results are saved for read-write transactions inside
    one. The loop ends at the first attempt that does not fail with a serialization error.
    */
    method InvokeTransactionFunction(step: Option<StepKey>, readOnly: bool, attempts: seq<Attempt>)
      returns (reply: Outcome, made: nat, waits: seq<real>)
      requires exists i :: 0 <= i < |attempts| && !attempts[i].Retriable?
      modifies this
      ensures !readOnly && step.Some? && step.value in old(completions) ==>
        reply == old(completions)[step.value] && made == 0 && completions == old(completions) && effects == old(effects)
      ensures !(!readOnly && step.Some? && step.value in old(completions)) ==>
        && 0 < made <= |attempts| && !attempts[made - 1].Retriable?
        && (forall i | 0 <= i < made - 1 :: attempts[i].Retriable?)
        && reply == (if attempts[made - 1].Commits? then Returned(attempts[made - 1].value) else Threw(attempts[made - 1].error))
        && completions == (if !readOnly && step.Some? then old(completions)[step.value := reply] else old(completions))
        && effects == (if !readOnly && reply.Returned? then old(effects) + [(step, reply.value)] else old(effects))
      ensures forall w | w in waits :: 1.0 <= w <= 2000.0
    {
      var saveResults := !readOnly && step.Some?;
      var retryWaitMS := 1.0;
      made := 0;
      waits := [];
      var last :| 0 <= last < |attempts| && !attempts[last].Retriable?;
      while true
        invariant made <= last && forall i | 0 <= i < made :: attempts[i].Retriable?
        invariant completions == old(completions) && effects == old(effects)
        invariant saveResults && made > 0 ==> step.value !in completions
        invariant 1.0 <= retryWaitMS <= 2000.0 && forall w | w in waits :: 1.0 <= w <= 2000.0
        decreases last - made
      {
        if saveResults && step.value in completions {
          reply := completions[step.value];
          return;
        }
        var attempt := attempts[made];
        made := made + 1;
        match attempt {
          case Commits(v) =>
            reply := Returned(v);
            if !readOnly {
              effects := effects + [(step, v)];
            }
            if saveResults {
              completions := completions[step.value := reply];
            }
            return;
          case Fails(e) =>
            reply := Threw(e);
            if saveResults {
              completions := completions[step.value := reply];
            }
            return;
          case Retriable =>
            waits := waits + [retryWaitMS];
            retryWaitMS := if retryWaitMS * 1.5 < 2000.0 then retryWaitMS * 1.5 else 2000.0;
        }
      }
    }
  }
}
