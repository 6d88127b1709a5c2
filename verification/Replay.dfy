/**
Step checkpoints and replay.

Any number of runs of the same workflow, on any executors, interleave over the shared `operation_outputs`
and `workflow_status` tables. A run crashes at any point and another one starts at any point. The body is a
deterministic function of the results it has received so far, which is what the system asks of user code.
The n-th step a run reaches has function ID n, because `functionIDGetIncrement` counts from zero.
*/
module Replay {
  import opened Common

  // What the body does next.
  datatype Action = CallStep(name: string) | Finish(outcome: Outcome)

  type Body = seq<Outcome> -> Action
  type Code = string -> Body

  datatype StepRow = StepRow(functionName: string, outcome: Outcome, completedAt: int)

  type Outputs = map<StepKey, StepRow>

  // The part of the status column that matters here: SUCCESS and ERROR carry the recorded outcome.
  datatype Progress = Active | Completed(outcome: Outcome) | Cancelled

  datatype Phase =
    | Deciding                                              // the body is about to act
    | Executing(name: string)                               // no checkpoint was found; the step function is running
    | Recording(name: string, outcome: Outcome, endTime: int) // the step function ended; its checkpoint is being written
    | Finishing(outcome: Outcome)                           // the body ended; its outcome is being written
    | Awaiting                                              // lost a checkpoint race; waits for the workflow's result
    | Done(outcome: Outcome)                                // gave this outcome to its caller
    | Aborted                                               // stopped by cancellation
    | Misaligned                                            // the checkpoint found belongs to another step

  datatype Run = Run(workflow: string, results: seq<Outcome>, phase: Phase) {
    function Key(): StepKey {
      StepKey(workflow, |results|)
    }
  }

  datatype State = State(
    outputs: Outputs,
    progress: map<string, Progress>,
    runs: map<nat, Run>,
    reported: seq<(string, Outcome)>)  // every outcome that a run recorded or returned, oldest first

  // ---------- One checkpoint write ----------

  // INSERT ... ON CONFLICT DO UPDATE SET completed_at = operation_outputs.completed_at: the first writer's row stays.
  function Recorded(outputs: Outputs, key: StepKey, row: StepRow): Outputs {
    if key in outputs then outputs else outputs[key := row]
  }

  // The writer is told of a conflict when the stored end stamp is not its own.
  predicate Conflicts(outputs: Outputs, key: StepKey, row: StepRow, checkConflict: bool) {
    checkConflict && key in outputs && outputs[key].completedAt != row.completedAt
  }

  /** The exact condition under which a writer that goes on holds the result the table holds. */
  lemma WriterAgreesExactly(outputs: Outputs, key: StepKey, row: StepRow, checkConflict: bool)
    ensures (!Conflicts(outputs, key, row, checkConflict) ==> Recorded(outputs, key, row)[key].outcome == row.outcome)
            <==> (key in outputs && outputs[key].outcome != row.outcome ==>
                    checkConflict && outputs[key].completedAt != row.completedAt)
  {
  }

  // ---------- The transition system ----------

  datatype Op =
    | Start(run: nat, workflow: string)
    | Decide(run: nat)
    | EndStep(run: nat, outcome: Outcome, endTime: int)
    | Record(run: nat, acknowledged: bool)         // an unacknowledged commit is retried with the same arguments
    | RecordOutcome(run: nat, acknowledged: bool)
    | Await(run: nat)
    | Crash(run: nat)
    | Cancel(workflow: string)
    | Resume(workflow: string)

  predicate Enabled(s: State, op: Op) {
    match op
    case Start(r, w) => r !in s.runs && w in s.progress
    case Decide(r) => r in s.runs && s.runs[r].phase.Deciding? && s.runs[r].workflow in s.progress
    case EndStep(r, _, _) => r in s.runs && s.runs[r].phase.Executing?
    case Record(r, _) => r in s.runs && s.runs[r].phase.Recording?
    case RecordOutcome(r, _) => r in s.runs && s.runs[r].phase.Finishing? && s.runs[r].workflow in s.progress
    case Await(r) =>
      r in s.runs && s.runs[r].phase.Awaiting? && s.runs[r].workflow in s.progress && s.progress[s.runs[r].workflow].Completed?
    case Crash(r) => r in s.runs
    case Cancel(w) => w in s.progress
    case Resume(w) => w in s.progress
  }

  // Competing recorders of one step of workflow v with different outcomes carry distinct end stamps.
  predicate FreshStamp(s: State, op: Op, v: string)
    requires Enabled(s, op)
  {
    op.EndStep? && s.runs[op.run].workflow == v ==>
      var key := s.runs[op.run].Key();
      && (key in s.outputs && s.outputs[key].outcome != op.outcome ==> s.outputs[key].completedAt != op.endTime)
      && forall r | r in s.runs ::
           s.runs[r].phase.Recording? && s.runs[r].Key() == key && s.runs[r].phase.outcome != op.outcome ==> s.runs[r].phase.endTime != op.endTime
  }

  function SetRun(s: State, r: nat, run: Run): State {
    s.(runs := s.runs[r := run])
  }

  // A cancelled workflow stops its run; a checkpoint found is returned; otherwise the step runs.
  function DecideStep(s: State, code: Code, r: nat): State
    requires Enabled(s, Decide(r))
  {
    var run := s.runs[r];
    match code(run.workflow)(run.results)
    case Finish(o) => SetRun(s, r, run.(phase := Finishing(o)))
    case CallStep(name) =>
      if s.progress[run.workflow].Cancelled? then SetRun(s, r, run.(phase := Aborted))
      else if run.Key() !in s.outputs then SetRun(s, r, run.(phase := Executing(name)))
      else if s.outputs[run.Key()].functionName != name then SetRun(s, r, run.(phase := Misaligned))
      else SetRun(s, r, run.(results := run.results + [s.outputs[run.Key()].outcome]))
  }

  function RecordStep(s: State, r: nat, acknowledged: bool): State
    requires Enabled(s, Record(r, acknowledged))
  {
    var run := s.runs[r];
    var row := StepRow(run.phase.name, run.phase.outcome, run.phase.endTime);
    var s' := s.(outputs := Recorded(s.outputs, run.Key(), row));
    if !acknowledged then s'
    else if Conflicts(s.outputs, run.Key(), row, true) then SetRun(s', r, run.(phase := Awaiting))
    else SetRun(s', r, run.(results := run.results + [row.outcome], phase := Deciding))
  }

  // The update guards against CANCELLED only: a later run that completes writes over an earlier SUCCESS or ERROR.
  function RecordOutcomeStep(s: State, r: nat, acknowledged: bool): State
    requires Enabled(s, RecordOutcome(r, acknowledged))
  {
    var run := s.runs[r];
    if s.progress[run.workflow].Cancelled? then
      if acknowledged then SetRun(s, r, run.(phase := Aborted)) else s
    else
      var s' := s.(progress := s.progress[run.workflow := Completed(run.phase.outcome)],
                   reported := s.reported + [(run.workflow, run.phase.outcome)]);
      if acknowledged then SetRun(s', r, run.(phase := Done(run.phase.outcome))) else s'
  }

  function Next(s: State, code: Code, op: Op): State
    requires Enabled(s, op)
  {
    match op
    case Start(r, w) => SetRun(s, r, Run(w, [], Deciding))
    case Decide(r) => DecideStep(s, code, r)
    case EndStep(r, o, t) => SetRun(s, r, s.runs[r].(phase := Recording(s.runs[r].phase.name, o, t)))
    case Record(r, ack) => RecordStep(s, r, ack)
    case RecordOutcome(r, ack) => RecordOutcomeStep(s, r, ack)
    case Await(r) =>
      var run := s.runs[r];
      var o := s.progress[run.workflow].outcome;
      SetRun(s, r, run.(phase := Done(o))).(reported := s.reported + [(run.workflow, o)])
    case Crash(r) => s.(runs := s.runs - {r})
    case Cancel(w) => if s.progress[w].Active? then s.(progress := s.progress[w := Cancelled]) else s
    case Resume(w) => if s.progress[w].Completed? then s else s.(progress := s.progress[w := Active])
  }

  // A whole run of the system: every operation is enabled where it happens.
  predicate Trace(s: State, code: Code, ops: seq<Op>)
    decreases |ops|
  {
    |ops| == 0 || (Enabled(s, ops[0]) && Trace(Next(s, code, ops[0]), code, ops[1..]))
  }

  // ... and respects the assumption on the end stamps of v.
  predicate Stamped(s: State, code: Code, ops: seq<Op>, v: string)
    requires Trace(s, code, ops)
    decreases |ops|
  {
    |ops| == 0 || (FreshStamp(s, ops[0], v) && Stamped(Next(s, code, ops[0]), code, ops[1..], v))
  }

  function Exec(s: State, code: Code, ops: seq<Op>): State
    requires Trace(s, code, ops)
    decreases |ops|
  {
    if |ops| == 0 then s else Exec(Next(s, code, ops[0]), code, ops[1..])
  }

  predicate Initial(s: State) {
    s.outputs == map[] && s.runs == map[] && s.reported == [] && forall w | w in s.progress :: s.progress[w].Active?
  }

  // ---------- What is kept ----------

  predicate Prefix(outputs: Outputs, w: string, n: nat) {
    forall i: nat | i < n :: StepKey(w, i) in outputs
  }

  // The recorded history: outcomes of steps 0 .. n-1.
  function Outcomes(outputs: Outputs, w: string, n: nat): seq<Outcome>
    requires Prefix(outputs, w, n)
  {
    seq(n, (i: nat) requires i < n => outputs[StepKey(w, i)].outcome)
  }

  // The workflow's meaning under the recorded history: the body ends with `o` after some n recorded steps.
  ghost predicate IsOutcome(outputs: Outputs, code: Code, w: string, o: Outcome) {
    exists n: nat :: EndsAt(outputs, code, w, n, o)
  }

  predicate EndsAt(outputs: Outputs, code: Code, w: string, n: nat, o: Outcome) {
    Prefix(outputs, w, n) && code(w)(Outcomes(outputs, w, n)) == Finish(o)
  }

  // The rows of v are dense, and each is the step that the body calls after the ones before it.
  predicate RowsFollowCode(outputs: Outputs, code: Code, v: string) {
    forall k | k in outputs && k.workflow == v ::
      && Prefix(outputs, v, k.functionId)
      && code(v)(Outcomes(outputs, v, k.functionId)) == CallStep(outputs[k].functionName)
  }

  predicate AtRows(outputs: Outputs, run: Run) {
    Prefix(outputs, run.workflow, |run.results|) && run.results == Outcomes(outputs, run.workflow, |run.results|)
  }

  ghost predicate PhaseOk(outputs: Outputs, code: Code, run: Run) {
    match run.phase
    case Executing(name) => code(run.workflow)(run.results) == CallStep(name)
    case Recording(name, o, t) =>
      && code(run.workflow)(run.results) == CallStep(name)
      && (run.Key() in outputs && outputs[run.Key()].completedAt == t ==> outputs[run.Key()].outcome == o)
    case Finishing(o) => code(run.workflow)(run.results) == Finish(o)
    case Done(o) => IsOutcome(outputs, code, run.workflow, o)
    case Misaligned => false
    case _ => true
  }

  ghost predicate RunOk(outputs: Outputs, code: Code, run: Run) {
    AtRows(outputs, run) && PhaseOk(outputs, code, run)
  }

  predicate StampsDistinct(runs: map<nat, Run>, v: string) {
    forall r, q | r in runs && q in runs && r != q ::
      runs[r].phase.Recording? && runs[q].phase.Recording? && runs[r].workflow == v && runs[r].Key() == runs[q].Key() ==>
        runs[r].phase.endTime != runs[q].phase.endTime || runs[r].phase.outcome == runs[q].phase.outcome
  }

  // All that is kept of workflow v.
  ghost predicate Inv(s: State, code: Code, v: string) {
    && RowsFollowCode(s.outputs, code, v)
    && (forall r | r in s.runs && s.runs[r].workflow == v :: RunOk(s.outputs, code, s.runs[r]))
    && StampsDistinct(s.runs, v)
    && (v in s.progress && s.progress[v].Completed? ==> IsOutcome(s.outputs, code, v, s.progress[v].outcome))
    && (forall i | 0 <= i < |s.reported| && s.reported[i].0 == v :: IsOutcome(s.outputs, code, v, s.reported[i].1))
  }

  predicate Extends(a: Outputs, b: Outputs) {
    forall k | k in a :: k in b && b[k] == a[k]
  }

  // ---------- Lemmas on histories ----------

  lemma OutcomesStable(a: Outputs, b: Outputs, w: string, n: nat)
    requires Extends(a, b) && Prefix(a, w, n)
    ensures Prefix(b, w, n) && Outcomes(b, w, n) == Outcomes(a, w, n)
  {
  }

  lemma OutcomeStable(a: Outputs, b: Outputs, code: Code, w: string, o: Outcome)
    requires Extends(a, b) && IsOutcome(a, code, w, o)
    ensures IsOutcome(b, code, w, o)
  {
    var n: nat :| EndsAt(a, code, w, n, o);
    OutcomesStable(a, b, w, n);
    assert EndsAt(b, code, w, n, o);
  }

  lemma NoRowAtEnd(outputs: Outputs, code: Code, w: string, n: nat, o: Outcome)
    requires RowsFollowCode(outputs, code, w) && EndsAt(outputs, code, w, n, o)
    ensures StepKey(w, n) !in outputs
  {
  }

  /** The recorded history leaves one outcome: a body that ends after n steps leaves no row n. */
  lemma OutcomeUnique(outputs: Outputs, code: Code, w: string, o: Outcome, p: Outcome)
    requires RowsFollowCode(outputs, code, w)
    requires IsOutcome(outputs, code, w, o) && IsOutcome(outputs, code, w, p)
    ensures o == p
  {
    var n: nat :| EndsAt(outputs, code, w, n, o);
    var m: nat :| EndsAt(outputs, code, w, m, p);
    NoRowAtEnd(outputs, code, w, n, o);
    NoRowAtEnd(outputs, code, w, m, p);
  }

  lemma RunStable(a: Outputs, b: Outputs, code: Code, run: Run)
    requires Extends(a, b) && RunOk(a, code, run)
    requires run.phase.Recording? && run.Key() in b && run.Key() !in a ==>
               b[run.Key()].completedAt != run.phase.endTime || b[run.Key()].outcome == run.phase.outcome
    ensures RunOk(b, code, run)
  {
    OutcomesStable(a, b, run.workflow, |run.results|);
    if run.phase.Done? {
      OutcomeStable(a, b, code, run.workflow, run.phase.outcome);
    }
  }

  // ---------- Each operation keeps the invariant ----------

  /** The table grows by the row of one recorder, of this workflow or another: everything else stays as it was. */
  lemma GrowthKeeps(s: State, code: Code, r: nat, v: string)
    requires Inv(s, code, v) && r in s.runs && s.runs[r].phase.Recording? && s.runs[r].Key() !in s.outputs
    ensures var run := s.runs[r];
            var row := StepRow(run.phase.name, run.phase.outcome, run.phase.endTime);
            var outputs := s.outputs[run.Key() := row];
            Extends(s.outputs, outputs) && Inv(s.(outputs := outputs), code, v)
  {
    var run := s.runs[r];
    var row := StepRow(run.phase.name, run.phase.outcome, run.phase.endTime);
    var outputs := s.outputs[run.Key() := row];
    forall k | k in outputs && k.workflow == v
      ensures Prefix(outputs, v, k.functionId)
      ensures code(v)(Outcomes(outputs, v, k.functionId)) == CallStep(outputs[k].functionName)
    {
      if k == run.Key() {
        assert RunOk(s.outputs, code, run);
      }
      OutcomesStable(s.outputs, outputs, v, k.functionId);
    }
    forall q | q in s.runs && s.runs[q].workflow == v ensures RunOk(outputs, code, s.runs[q]) {
      RunStable(s.outputs, outputs, code, s.runs[q]);
    }
    if v in s.progress && s.progress[v].Completed? {
      OutcomeStable(s.outputs, outputs, code, v, s.progress[v].outcome);
    }
    forall i | 0 <= i < |s.reported| && s.reported[i].0 == v ensures IsOutcome(outputs, code, v, s.reported[i].1) {
      OutcomeStable(s.outputs, outputs, code, v, s.reported[i].1);
    }
  }

  lemma SetRunKeeps(s: State, code: Code, r: nat, run: Run, v: string)
    requires Inv(s, code, v) && (run.workflow == v ==> RunOk(s.outputs, code, run)) && !run.phase.Recording?
    ensures Inv(SetRun(s, r, run), code, v)
  {
  }

  // A run that received the row of its current step stands one step further.
  lemma Advanced(outputs: Outputs, run: Run)
    requires AtRows(outputs, run) && run.Key() in outputs
    ensures AtRows(outputs, run.(results := run.results + [outputs[run.Key()].outcome]))
  {
  }

  lemma DecideKeeps(s: State, code: Code, r: nat, v: string)
    requires Inv(s, code, v) && Enabled(s, Decide(r))
    ensures Inv(DecideStep(s, code, r), code, v)
  {
    var run := s.runs[r];
    if run.workflow == v {
      assert RunOk(s.outputs, code, run);
      if run.Key() in s.outputs {
        Advanced(s.outputs, run);
      }
    }
    SetRunKeeps(s, code, r, DecideStep(s, code, r).runs[r], v);
  }

  lemma RecordKeeps(s: State, code: Code, r: nat, acknowledged: bool, v: string)
    requires Inv(s, code, v) && Enabled(s, Record(r, acknowledged))
    ensures Inv(RecordStep(s, r, acknowledged), code, v)
  {
    var run := s.runs[r];
    var row := StepRow(run.phase.name, run.phase.outcome, run.phase.endTime);
    var s' := s.(outputs := Recorded(s.outputs, run.Key(), row));
    if run.Key() !in s.outputs {
      GrowthKeeps(s, code, r, v);
    }
    if acknowledged {
      var next := if Conflicts(s.outputs, run.Key(), row, true) then run.(phase := Awaiting)
                  else run.(results := run.results + [row.outcome], phase := Deciding);
      if run.workflow == v {
        assert RunOk(s'.outputs, code, run);
        Advanced(s'.outputs, run);
      }
      SetRunKeeps(s', code, r, next, v);
    }
  }

  lemma RecordOutcomeKeeps(s: State, code: Code, r: nat, acknowledged: bool, v: string)
    requires Inv(s, code, v) && Enabled(s, RecordOutcome(r, acknowledged))
    ensures Inv(RecordOutcomeStep(s, r, acknowledged), code, v)
  {
    var run := s.runs[r];
    if run.workflow == v {
      assert RunOk(s.outputs, code, run);
      assert EndsAt(s.outputs, code, v, |run.results|, run.phase.outcome);
    }
  }

  lemma EndStepKeeps(s: State, code: Code, r: nat, o: Outcome, t: int, v: string)
    requires Inv(s, code, v) && Enabled(s, EndStep(r, o, t)) && FreshStamp(s, EndStep(r, o, t), v)
    ensures Inv(Next(s, code, EndStep(r, o, t)), code, v)
  {
    assert s.runs[r].workflow == v ==> RunOk(s.outputs, code, s.runs[r]);
  }

  lemma AwaitKeeps(s: State, code: Code, r: nat, v: string)
    requires Inv(s, code, v) && Enabled(s, Await(r))
    ensures Inv(Next(s, code, Await(r)), code, v)
  {
    if s.runs[r].workflow == v {
      assert IsOutcome(s.outputs, code, v, s.progress[v].outcome);
      assert RunOk(s.outputs, code, s.runs[r]);
    }
  }

  lemma StepKeeps(s: State, code: Code, op: Op, v: string)
    requires Inv(s, code, v) && Enabled(s, op) && FreshStamp(s, op, v)
    ensures Inv(Next(s, code, op), code, v)
    ensures Extends(s.outputs, Next(s, code, op).outputs)
  {
    match op
    case Decide(r) => DecideKeeps(s, code, r, v);
    case Record(r, ack) => RecordKeeps(s, code, r, ack, v);
    case RecordOutcome(r, ack) => RecordOutcomeKeeps(s, code, r, ack, v);
    case Start(r, w) => SetRunKeeps(s, code, r, Run(w, [], Deciding), v);
    case Await(r) => AwaitKeeps(s, code, r, v);
    case EndStep(r, o, t) => EndStepKeeps(s, code, r, o, t, v);
    case _ =>
  }

  lemma {:induction false} ExecKeeps(s: State, code: Code, ops: seq<Op>, v: string)
    requires Inv(s, code, v) && Trace(s, code, ops) && Stamped(s, code, ops, v)
    ensures Inv(Exec(s, code, ops), code, v)
    ensures Extends(s.outputs, Exec(s, code, ops).outputs)
    decreases |ops|
  {
    if |ops| > 0 {
      StepKeeps(s, code, ops[0], v);
      ExecKeeps(Next(s, code, ops[0]), code, ops[1..], v);
    }
  }

  // ---------- Main results ----------

  /**
  Replay agreement: after any interleaving of starts, steps, crashes, re-runs, unacknowledged commits,
  cancellations and resumes, the results each live run of a workflow has received are the recorded rows, no run meets a
  checkpoint of another step, and every outcome that any run recorded or returned for it is the same.
  */
  lemma ReplayAgreement(s: State, code: Code, ops: seq<Op>, v: string)
    requires Initial(s) && Trace(s, code, ops) && Stamped(s, code, ops, v)
    ensures var e := Exec(s, code, ops);
            && (forall r | r in e.runs && e.runs[r].workflow == v :: AtRows(e.outputs, e.runs[r]) && !e.runs[r].phase.Misaligned?)
            && (forall i, j | 0 <= i < |e.reported| && 0 <= j < |e.reported| ::
                  e.reported[i].0 == v == e.reported[j].0 ==> e.reported[i].1 == e.reported[j].1)
  {
    ExecKeeps(s, code, ops, v);
    var e := Exec(s, code, ops);
    forall r | r in e.runs && e.runs[r].workflow == v ensures AtRows(e.outputs, e.runs[r]) && !e.runs[r].phase.Misaligned? {
      assert RunOk(e.outputs, code, e.runs[r]);
    }
    forall i, j | 0 <= i < |e.reported| && 0 <= j < |e.reported| && e.reported[i].0 == v == e.reported[j].0
      ensures e.reported[i].1 == e.reported[j].1
    {
      OutcomeUnique(e.outputs, code, v, e.reported[i].1, e.reported[j].1);
    }
  }

  lemma OutputsGrow(s: State, code: Code, op: Op)
    requires Enabled(s, op)
    ensures Extends(s.outputs, Next(s, code, op).outputs)
  {
  }

  /** Checkpoints never change, from any state onwards and whatever the stamps: a writer that comes second replaces nothing. */
  lemma {:induction false} RowsNeverChange(s: State, code: Code, ops: seq<Op>)
    requires Trace(s, code, ops)
    ensures Extends(s.outputs, Exec(s, code, ops).outputs)
    decreases |ops|
  {
    if |ops| > 0 {
      OutputsGrow(s, code, ops[0]);
      RowsNeverChange(Next(s, code, ops[0]), code, ops[1..]);
    }
  }

  // No run is executing this step.
  predicate NotExecuting(s: State, key: StepKey) {
    forall r | r in s.runs :: s.runs[r].phase.Executing? ==> s.runs[r].Key() != key
  }

  lemma StillNotExecuting(s: State, code: Code, op: Op, key: StepKey)
    requires Enabled(s, op) && key in s.outputs && NotExecuting(s, key)
    ensures NotExecuting(Next(s, code, op), key)
  {
  }

  /** A step that is recorded, and that no run is in the middle of, is never executed again. */
  lemma {:induction false} RecordedStepsAreNotExecuted(s: State, code: Code, ops: seq<Op>, key: StepKey)
    requires Trace(s, code, ops) && key in s.outputs && NotExecuting(s, key)
    ensures NotExecuting(Exec(s, code, ops), key)
    decreases |ops|
  {
    if |ops| > 0 {
      OutputsGrow(s, code, ops[0]);
      StillNotExecuting(s, code, ops[0], key);
      RecordedStepsAreNotExecuted(Next(s, code, ops[0]), code, ops[1..], key);
    }
  }

  /**
  A recorded SUCCESS or ERROR keeps its value although the update writes over it: every later run that gets
  that far writes what is already there.
  */
  lemma {:induction false} OutcomeNeverChanges(s: State, code: Code, ops: seq<Op>, w: string, o: Outcome)
    requires Inv(s, code, w) && Trace(s, code, ops) && Stamped(s, code, ops, w)
    requires w in s.progress && s.progress[w] == Completed(o)
    ensures var e := Exec(s, code, ops); w in e.progress && e.progress[w] == Completed(o)
    decreases |ops|
  {
    if |ops| > 0 {
      StepKeeps(s, code, ops[0], w);
      CompletedStep(s, code, ops[0], w, o);
      OutcomeNeverChanges(Next(s, code, ops[0]), code, ops[1..], w, o);
    }
  }

  lemma CompletedStep(s: State, code: Code, op: Op, w: string, o: Outcome)
    requires Inv(s, code, w) && Enabled(s, op) && w in s.progress && s.progress[w] == Completed(o)
    ensures var n := Next(s, code, op); w in n.progress && n.progress[w] == Completed(o)
  {
    if op.RecordOutcome? && s.runs[op.run].workflow == w {
      var run := s.runs[op.run];
      assert RunOk(s.outputs, code, run);
      assert EndsAt(s.outputs, code, w, |run.results|, run.phase.outcome);
      OutcomeUnique(s.outputs, code, w, run.phase.outcome, o);
    }
  }

  // ---------- Why the stamps must differ ----------

  lemma Unfold(s: State, code: Code, op: Op, ops: seq<Op>)
    requires Enabled(s, op) && Trace(Next(s, code, op), code, ops)
    ensures Trace(s, code, [op] + ops) && Exec(s, code, [op] + ops) == Exec(Next(s, code, op), code, ops)
  {
    assert ([op] + ops)[1..] == ops;
  }

  function OneStep(results: seq<Outcome>): Action {
    if |results| == 0 then CallStep("charge") else Finish(results[0])
  }

  lemma {:induction false} Append(s: State, code: Code, first: seq<Op>, second: seq<Op>)
    requires Trace(s, code, first) && Trace(Exec(s, code, first), code, second)
    ensures Trace(s, code, first + second) && Exec(s, code, first + second) == Exec(Exec(s, code, first), code, second)
    decreases |first|
  {
    if |first| == 0 {
      assert first + second == second;
    } else {
      Append(Next(s, code, first[0]), code, first[1..], second);
      assert (first + second)[1..] == first[1..] + second;
    }
  }

  // Both runs have executed the step and carry the end stamp 7.
  function Collision(): State {
    State(map[], map["w" := Active],
          map[0 := Run("w", [], Recording("charge", Returned("x"), 7)),
              1 := Run("w", [], Recording("charge", Returned("y"), 7))], [])
  }

  lemma CollisionIsReachable(s: State, code: Code) returns (ops: seq<Op>)
    requires s == State(map[], map["w" := Active], map[], []) && code("w") == OneStep
    ensures Trace(s, code, ops) && Exec(s, code, ops) == Collision()
  {
    var s1 := Next(s, code, Start(0, "w"));
    var s2 := Next(s1, code, Start(1, "w"));
    var s3 := Next(s2, code, Decide(0));
    var s4 := Next(s3, code, Decide(1));
    var s5 := Next(s4, code, EndStep(0, Returned("x"), 7));
    ops := [];
    Unfold(s5, code, EndStep(1, Returned("y"), 7), ops); ops := [EndStep(1, Returned("y"), 7)] + ops;
    Unfold(s4, code, EndStep(0, Returned("x"), 7), ops); ops := [EndStep(0, Returned("x"), 7)] + ops;
    Unfold(s3, code, Decide(1), ops); ops := [Decide(1)] + ops;
    Unfold(s2, code, Decide(0), ops); ops := [Decide(0)] + ops;
    Unfold(s1, code, Start(1, "w"), ops); ops := [Start(1, "w")] + ops;
    Unfold(s, code, Start(0, "w"), ops); ops := [Start(0, "w")] + ops;
  }

  // Both have recorded: the second was not told of the conflict.
  function Crossed(): State {
    State(map[StepKey("w", 0) := StepRow("charge", Returned("x"), 7)], map["w" := Active],
          map[0 := Run("w", [Returned("x")], Deciding), 1 := Run("w", [Returned("y")], Deciding)], [])
  }

  lemma CollisionCrosses(code: Code) returns (ops: seq<Op>)
    ensures Trace(Collision(), code, ops) && Exec(Collision(), code, ops) == Crossed()
  {
    var s6 := Collision();
    var s7 := Next(s6, code, Record(0, true));
    var s8 := Next(s7, code, Record(1, true));
    assert [] + [Returned("x")] == [Returned("x")] && [] + [Returned("y")] == [Returned("y")];
    assert s8.outputs == Crossed().outputs && s8.runs == Crossed().runs;
    Unfold(s7, code, Record(1, true), []);
    Unfold(s6, code, Record(0, true), [Record(1, true)] + []);
    ops := [Record(0, true)] + ([Record(1, true)] + []);
  }

  lemma CrossedDisagrees(code: Code) returns (ops: seq<Op>)
    requires code("w") == OneStep
    ensures Trace(Crossed(), code, ops)
    ensures var e := Exec(Crossed(), code, ops);
            && e.reported == [("w", Returned("x")), ("w", Returned("y"))]
            && 1 in e.runs && !AtRows(e.outputs, e.runs[1])
  {
    var s8 := Crossed();
    var s9 := Next(s8, code, Decide(0));
    var s10 := Next(s9, code, RecordOutcome(0, true));
    var s11 := Next(s10, code, Decide(1));
    var s12 := Next(s11, code, RecordOutcome(1, true));
    ops := [];
    Unfold(s11, code, RecordOutcome(1, true), ops); ops := [RecordOutcome(1, true)] + ops;
    Unfold(s10, code, Decide(1), ops); ops := [Decide(1)] + ops;
    Unfold(s9, code, RecordOutcome(0, true), ops); ops := [RecordOutcome(0, true)] + ops;
    Unfold(s8, code, Decide(0), ops); ops := [Decide(0)] + ops;
    assert s12.outputs[StepKey("w", 0)].outcome == Returned("x");
  }

  /**
  Two recorders of one step with the same end stamp: the second is not told of the conflict, goes on with a
  result that is not the recorded one, and the two runs report different outcomes for one workflow.
  */
  lemma EqualStampsBreakAgreement() returns (s: State, code: Code, ops: seq<Op>)
    ensures Initial(s) && Trace(s, code, ops)
    ensures var e := Exec(s, code, ops);
            && e.reported == [("w", Returned("x")), ("w", Returned("y"))]
            && 1 in e.runs && !AtRows(e.outputs, e.runs[1])
  {
    code := w => OneStep;
    s := State(map[], map["w" := Active], map[], []);
    var first := CollisionIsReachable(s, code);
    var second := CollisionCrosses(code);
    var third := CrossedDisagrees(code);
    Append(s, code, first, second);
    Append(s, code, first + second, third);
    ops := first + second + third;
  }
}
