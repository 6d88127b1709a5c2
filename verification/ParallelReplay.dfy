/**
Replay of bodies that call several steps before the first one ends.

A step draws its function ID when the body calls it, before anything is awaited; what happens to it then interleaves with
the other steps of the run, also after the body has ended. So checkpoints are written, and results arrive, in any order. The
body is a function of the number of steps it has called and of the results that have arrived.
*/
module ParallelReplay {
  import opened Common
  import R = Replay

  type Results = map<nat, Outcome>

  // Waiting means that the body can do nothing before more results arrive.
  datatype Action = CallStep(name: string) | Finish(outcome: Outcome) | Wait

  type Body = (nat, Results) -> Action
  type Code = string -> Body

  predicate Within(a: Results, b: Results) {
    forall f | f in a :: f in b && b[f] == a[f]
  }

  // Once the body can act, what it does does not depend on which further results have arrived.
  ghost predicate Deterministic(body: Body) {
    forall n: nat, a: Results, b: Results | Within(a, b) :: !body(n, a).Wait? ==> body(n, b) == body(n, a)
  }

  datatype Step =
    | Looking(name: string)                                   // called; its checkpoint has not been looked up
    | Executing(name: string)
    | Recording(name: string, outcome: Outcome, endTime: int)

  datatype Phase = Active | Finishing(outcome: Outcome) | Awaiting | Done(outcome: Outcome) | Aborted | Misaligned

  datatype Run = Run(workflow: string, called: nat, arrived: Results, steps: map<nat, Step>, phase: Phase)

  datatype State = State(
    outputs: R.Outputs,
    progress: map<string, R.Progress>,
    runs: map<nat, Run>,
    reported: seq<(string, Outcome)>)

  datatype Op =
    | Start(run: nat, workflow: string)
    | Proceed(run: nat)                                       // the body calls a step or ends
    | Look(run: nat, step: nat)
    | EndStep(run: nat, step: nat, outcome: Outcome, endTime: int)
    | Record(run: nat, step: nat, acknowledged: bool)
    | RecordOutcome(run: nat, acknowledged: bool)
    | Await(run: nat)
    | Crash(run: nat)
    | Cancel(workflow: string)
    | Resume(workflow: string)

  predicate HasStep(s: State, r: nat, f: nat) {
    r in s.runs && f in s.runs[r].steps
  }

  predicate Enabled(s: State, op: Op) {
    match op
    case Start(r, w) => r !in s.runs && w in s.progress
    case Proceed(r) => r in s.runs && s.runs[r].phase.Active?
    case Look(r, f) => HasStep(s, r, f) && s.runs[r].steps[f].Looking? && s.runs[r].workflow in s.progress
    case EndStep(r, f, _, _) => HasStep(s, r, f) && s.runs[r].steps[f].Executing?
    case Record(r, f, _) => HasStep(s, r, f) && s.runs[r].steps[f].Recording?
    case RecordOutcome(r, _) => r in s.runs && s.runs[r].phase.Finishing? && s.runs[r].workflow in s.progress
    case Await(r) =>
      r in s.runs && s.runs[r].phase.Awaiting? && s.runs[r].workflow in s.progress && s.progress[s.runs[r].workflow].Completed?
    case Crash(r) => r in s.runs
    case Cancel(w) => w in s.progress
    case Resume(w) => w in s.progress
  }

  function SetRun(s: State, r: nat, run: Run): State {
    s.(runs := s.runs[r := run])
  }

  function ProceedRun(run: Run, code: Code): Run {
    match code(run.workflow)(run.called, run.arrived)
    case CallStep(name) => run.(called := run.called + 1, steps := run.steps[run.called := Looking(name)])
    case Finish(o) => run.(phase := Finishing(o))
    case Wait => run
  }

  // A step throws to the body what ends the run, unless the run has ended.
  function Fails(run: Run, f: nat, phase: Phase): Run {
    run.(steps := run.steps - {f}, phase := if run.phase.Active? then phase else run.phase)
  }

  function Arrives(run: Run, f: nat, o: Outcome): Run {
    run.(steps := run.steps - {f}, arrived := run.arrived[f := o])
  }

  function LookRun(s: State, r: nat, f: nat): Run
    requires Enabled(s, Look(r, f))
  {
    var run := s.runs[r];
    var key := StepKey(run.workflow, f);
    if s.progress[run.workflow].Cancelled? then Fails(run, f, Aborted)
    else if key !in s.outputs then run.(steps := run.steps[f := Executing(run.steps[f].name)])
    else if s.outputs[key].functionName != run.steps[f].name then Fails(run, f, Misaligned)
    else Arrives(run, f, s.outputs[key].outcome)
  }

  function RowOf(step: Step): R.StepRow
    requires step.Recording?
  {
    R.StepRow(step.name, step.outcome, step.endTime)
  }

  function RecordStep(s: State, r: nat, f: nat, acknowledged: bool): State
    requires Enabled(s, Record(r, f, acknowledged))
  {
    var run := s.runs[r];
    var key, row := StepKey(run.workflow, f), RowOf(run.steps[f]);
    var s' := s.(outputs := R.Recorded(s.outputs, key, row));
    if !acknowledged then s'
    else if R.Conflicts(s.outputs, key, row, true) then SetRun(s', r, Fails(run, f, Awaiting))
    else SetRun(s', r, Arrives(run, f, row.outcome))
  }

  function RecordOutcomeStep(s: State, r: nat, acknowledged: bool): State
    requires Enabled(s, RecordOutcome(r, acknowledged))
  {
    var run := s.runs[r];
    if s.progress[run.workflow].Cancelled? then
      if acknowledged then SetRun(s, r, run.(phase := Aborted)) else s
    else
      var s' := s.(progress := s.progress[run.workflow := R.Completed(run.phase.outcome)],
                   reported := s.reported + [(run.workflow, run.phase.outcome)]);
      if acknowledged then SetRun(s', r, run.(phase := Done(run.phase.outcome))) else s'
  }

  function Next(s: State, code: Code, op: Op): State
    requires Enabled(s, op)
  {
    match op
    case Start(r, w) => SetRun(s, r, Run(w, 0, map[], map[], Active))
    case Proceed(r) => SetRun(s, r, ProceedRun(s.runs[r], code))
    case Look(r, f) => SetRun(s, r, LookRun(s, r, f))
    case EndStep(r, f, o, t) => SetRun(s, r, s.runs[r].(steps := s.runs[r].steps[f := Recording(s.runs[r].steps[f].name, o, t)]))
    case Record(r, f, ack) => RecordStep(s, r, f, ack)
    case RecordOutcome(r, ack) => RecordOutcomeStep(s, r, ack)
    case Await(r) =>
      var o := s.progress[s.runs[r].workflow].outcome;
      SetRun(s, r, s.runs[r].(phase := Done(o))).(reported := s.reported + [(s.runs[r].workflow, o)])
    case Crash(r) => s.(runs := s.runs - {r})
    case Cancel(w) => if s.progress[w].Active? then s.(progress := s.progress[w := R.Cancelled]) else s
    case Resume(w) => if s.progress[w].Completed? then s else s.(progress := s.progress[w := R.Active])
  }

  predicate Trace(s: State, code: Code, ops: seq<Op>)
    decreases |ops|
  {
    |ops| == 0 || (Enabled(s, ops[0]) && Trace(Next(s, code, ops[0]), code, ops[1..]))
  }

  function Exec(s: State, code: Code, ops: seq<Op>): State
    requires Trace(s, code, ops)
    decreases |ops|
  {
    if |ops| == 0 then s else Exec(Next(s, code, ops[0]), code, ops[1..])
  }

  // Another run is recording the step with another outcome.
  predicate Competes(run: Run, v: string, f: nat, o: Outcome) {
    run.workflow == v && f in run.steps && run.steps[f].Recording? && run.steps[f].outcome != o
  }

  // Competing recorders of one step of workflow v with different outcomes carry distinct end stamps.
  predicate FreshStamp(s: State, op: Op, v: string)
    requires Enabled(s, op)
  {
    op.EndStep? && s.runs[op.run].workflow == v ==>
      var key := StepKey(v, op.step);
      && (key in s.outputs && s.outputs[key].outcome != op.outcome ==> s.outputs[key].completedAt != op.endTime)
      && forall r | r in s.runs && Competes(s.runs[r], v, op.step, op.outcome) :: s.runs[r].steps[op.step].endTime != op.endTime
  }

  predicate Stamped(s: State, code: Code, ops: seq<Op>, v: string)
    requires Trace(s, code, ops)
    decreases |ops|
  {
    |ops| == 0 || (FreshStamp(s, ops[0], v) && Stamped(Next(s, code, ops[0]), code, ops[1..], v))
  }

  predicate Initial(s: State) {
    s.outputs == map[] && s.runs == map[] && s.reported == [] && forall w | w in s.progress :: s.progress[w].Active?
  }

  // ---------- What the recorded results determine ----------

  // The recorded results of the steps before n.
  function Recorded(outputs: R.Outputs, v: string, n: nat): Results {
    map f: nat | f < n && StepKey(v, f) in outputs :: outputs[StepKey(v, f)].outcome
  }

  // What the body of v does after n calls, as far as the recorded results say.
  function Acts(outputs: R.Outputs, code: Code, v: string, n: nat): Action {
    code(v)(n, Recorded(outputs, v, n))
  }

  // The body ends with o after n calls.
  predicate EndsAt(outputs: R.Outputs, code: Code, v: string, n: nat, o: Outcome) {
    && (forall f: nat | f < n :: Acts(outputs, code, v, f).CallStep?)
    && Acts(outputs, code, v, n) == Finish(o)
  }

  ghost predicate IsOutcome(outputs: R.Outputs, code: Code, v: string, o: Outcome) {
    exists n: nat :: EndsAt(outputs, code, v, n, o)
  }

  lemma ActsStable(a: R.Outputs, b: R.Outputs, code: Code, v: string, n: nat)
    requires Deterministic(code(v)) && R.Extends(a, b)
    ensures !Acts(a, code, v, n).Wait? ==> Acts(b, code, v, n) == Acts(a, code, v, n)
  {
    assert Within(Recorded(a, v, n), Recorded(b, v, n));
  }

  lemma OutcomeStable(a: R.Outputs, b: R.Outputs, code: Code, v: string, o: Outcome)
    requires Deterministic(code(v)) && R.Extends(a, b) && IsOutcome(a, code, v, o)
    ensures IsOutcome(b, code, v, o)
  {
    var n: nat :| EndsAt(a, code, v, n, o);
    forall f: nat | f <= n ensures Acts(b, code, v, f) == Acts(a, code, v, f) {
      ActsStable(a, b, code, v, f);
    }
    assert EndsAt(b, code, v, n, o);
  }

  lemma EndsOnce(outputs: R.Outputs, code: Code, v: string, n: nat, o: Outcome, m: nat, p: Outcome)
    requires EndsAt(outputs, code, v, n, o) && EndsAt(outputs, code, v, m, p)
    ensures n == m
  {
    assert n < m ==> Acts(outputs, code, v, n).CallStep?;
    assert m < n ==> Acts(outputs, code, v, m).CallStep?;
  }

  /** In whatever order the results were recorded, they leave one outcome. */
  lemma OutcomeUnique(outputs: R.Outputs, code: Code, v: string, o: Outcome, p: Outcome)
    requires IsOutcome(outputs, code, v, o) && IsOutcome(outputs, code, v, p)
    ensures o == p
  {
    var n: nat :| EndsAt(outputs, code, v, n, o);
    var m: nat :| EndsAt(outputs, code, v, m, p);
    EndsOnce(outputs, code, v, n, o, m, p);
  }

  // ---------- What is kept of workflow v ----------

  // Each row is the step that the body calls at that point.
  ghost predicate RowsFollowCode(outputs: R.Outputs, code: Code, v: string) {
    forall f: nat | StepKey(v, f) in outputs :: Acts(outputs, code, v, f) == CallStep(outputs[StepKey(v, f)].functionName)
  }

  // The run has called the steps that the recorded results call for, and received what is recorded.
  predicate CallsOk(outputs: R.Outputs, code: Code, run: Run) {
    && (forall f: nat | f < run.called :: Acts(outputs, code, run.workflow, f).CallStep?)
    && Within(run.arrived, Recorded(outputs, run.workflow, run.called))
  }

  predicate StepOk(outputs: R.Outputs, code: Code, run: Run, f: nat)
    requires f in run.steps
  {
    && f < run.called && Acts(outputs, code, run.workflow, f) == CallStep(run.steps[f].name)
    && (run.steps[f].Recording? && StepKey(run.workflow, f) in outputs && outputs[StepKey(run.workflow, f)].completedAt == run.steps[f].endTime ==>
          outputs[StepKey(run.workflow, f)].outcome == run.steps[f].outcome)
  }

  ghost predicate PhaseOk(outputs: R.Outputs, code: Code, run: Run) {
    match run.phase
    case Finishing(o) => IsOutcome(outputs, code, run.workflow, o)
    case Done(o) => IsOutcome(outputs, code, run.workflow, o)
    case Misaligned => false
    case _ => true
  }

  ghost predicate RunOk(outputs: R.Outputs, code: Code, run: Run) {
    CallsOk(outputs, code, run) && (forall f | f in run.steps :: StepOk(outputs, code, run, f)) && PhaseOk(outputs, code, run)
  }

  // Two runs are recording one step.
  predicate Both(a: Run, b: Run, v: string, f: nat) {
    a.workflow == v == b.workflow && f in a.steps && f in b.steps && a.steps[f].Recording? && b.steps[f].Recording?
  }

  ghost predicate StampsDistinct(runs: map<nat, Run>, v: string) {
    forall r, q, f | r in runs && q in runs && r != q && Both(runs[r], runs[q], v, f) ::
      runs[r].steps[f].endTime != runs[q].steps[f].endTime || runs[r].steps[f].outcome == runs[q].steps[f].outcome
  }

  ghost predicate Inv(s: State, code: Code, v: string) {
    && RowsFollowCode(s.outputs, code, v)
    && (forall r | r in s.runs && s.runs[r].workflow == v :: RunOk(s.outputs, code, s.runs[r]))
    && StampsDistinct(s.runs, v)
    && (v in s.progress && s.progress[v].Completed? ==> IsOutcome(s.outputs, code, v, s.progress[v].outcome))
    && (forall i | 0 <= i < |s.reported| && s.reported[i].0 == v :: IsOutcome(s.outputs, code, v, s.reported[i].1))
  }

  // ---------- More rows ----------

  lemma RunStable(a: R.Outputs, b: R.Outputs, code: Code, run: Run)
    requires Deterministic(code(run.workflow)) && R.Extends(a, b) && RunOk(a, code, run)
    requires forall f | f in run.steps && run.steps[f].Recording? && StepKey(run.workflow, f) in b && StepKey(run.workflow, f) !in a ::
               b[StepKey(run.workflow, f)].completedAt != run.steps[f].endTime || b[StepKey(run.workflow, f)].outcome == run.steps[f].outcome
    ensures RunOk(b, code, run)
  {
    var v := run.workflow;
    forall f: nat | f < run.called ensures Acts(b, code, v, f) == Acts(a, code, v, f) {
      ActsStable(a, b, code, v, f);
    }
    forall f | f in run.steps ensures StepOk(b, code, run, f) {
      assert StepOk(a, code, run, f);
    }
    if run.phase.Finishing? || run.phase.Done? {
      OutcomeStable(a, b, code, v, run.phase.outcome);
    }
  }

  lemma RowsStable(a: R.Outputs, b: R.Outputs, code: Code, v: string)
    requires Deterministic(code(v)) && R.Extends(a, b) && RowsFollowCode(a, code, v)
    requires forall f: nat | StepKey(v, f) in b && StepKey(v, f) !in a :: Acts(a, code, v, f) == CallStep(b[StepKey(v, f)].functionName)
    ensures RowsFollowCode(b, code, v)
  {
    forall f: nat | StepKey(v, f) in b ensures Acts(b, code, v, f) == CallStep(b[StepKey(v, f)].functionName) {
      ActsStable(a, b, code, v, f);
    }
  }

  // A new row is that of one recorder.
  predicate NewRowOf(s: State, outputs: R.Outputs, r: nat, f: nat) {
    && HasStep(s, r, f) && s.runs[r].steps[f].Recording? && StepKey(s.runs[r].workflow, f) !in s.outputs
    && outputs == s.outputs[StepKey(s.runs[r].workflow, f) := RowOf(s.runs[r].steps[f])]
  }

  lemma GrowthKeepsRun(s: State, code: Code, r: nat, f: nat, v: string, outputs: R.Outputs, q: nat)
    requires Inv(s, code, v) && Deterministic(code(v)) && NewRowOf(s, outputs, r, f) && q in s.runs && s.runs[q].workflow == v
    ensures RunOk(outputs, code, s.runs[q])
  {
    var run := s.runs[q];
    forall g | g in run.steps && run.steps[g].Recording? && StepKey(v, g) in outputs && StepKey(v, g) !in s.outputs
      ensures outputs[StepKey(v, g)].completedAt != run.steps[g].endTime || outputs[StepKey(v, g)].outcome == run.steps[g].outcome
    {
      assert g == f && s.runs[r].workflow == v;
      assert q != r ==> Both(s.runs[r], run, v, f);
    }
    RunStable(s.outputs, outputs, code, run);
  }

  lemma GrowthKeepsRows(s: State, code: Code, r: nat, f: nat, v: string, outputs: R.Outputs)
    requires Inv(s, code, v) && Deterministic(code(v)) && NewRowOf(s, outputs, r, f)
    ensures RowsFollowCode(outputs, code, v)
  {
    if s.runs[r].workflow == v {
      assert RunOk(s.outputs, code, s.runs[r]);
      assert StepOk(s.outputs, code, s.runs[r], f);
    }
    RowsStable(s.outputs, outputs, code, v);
  }

  /** The table grows by the row of one recorder, of this workflow or another: everything else stays as it was. */
  lemma GrowthKeeps(s: State, code: Code, r: nat, f: nat, v: string, outputs: R.Outputs)
    requires Inv(s, code, v) && Deterministic(code(v)) && NewRowOf(s, outputs, r, f)
    ensures Inv(s.(outputs := outputs), code, v)
  {
    GrowthKeepsRows(s, code, r, f, v, outputs);
    forall q | q in s.runs && s.runs[q].workflow == v ensures RunOk(outputs, code, s.runs[q]) {
      GrowthKeepsRun(s, code, r, f, v, outputs, q);
    }
    if v in s.progress && s.progress[v].Completed? {
      OutcomeStable(s.outputs, outputs, code, v, s.progress[v].outcome);
    }
    forall i | 0 <= i < |s.reported| && s.reported[i].0 == v ensures IsOutcome(outputs, code, v, s.reported[i].1) {
      OutcomeStable(s.outputs, outputs, code, v, s.reported[i].1);
    }
  }

  // ---------- One run goes on ----------

  // No step of the run is recording that was not.
  predicate NoNewRecorder(run: Run, run': Run) {
    run'.workflow == run.workflow && forall f | f in run'.steps && run'.steps[f].Recording? :: f in run.steps && run'.steps[f] == run.steps[f]
  }

  // One run of the table changes.
  lemma OneRunChanges(s: State, code: Code, r: nat, run: Run, v: string)
    requires Inv(s, code, v) && (run.workflow == v ==> RunOk(s.outputs, code, run)) && StampsDistinct(s.runs[r := run], v)
    ensures Inv(SetRun(s, r, run), code, v)
  {
  }

  lemma RunChanges(s: State, code: Code, r: nat, run: Run, v: string)
    requires Inv(s, code, v) && (run.workflow == v ==> RunOk(s.outputs, code, run))
    requires if r in s.runs then NoNewRecorder(s.runs[r], run) else run.steps == map[]
    ensures Inv(SetRun(s, r, run), code, v)
  {
    var runs := s.runs[r := run];
    forall p, q, f | p in runs && q in runs && p != q && Both(runs[p], runs[q], v, f)
      ensures runs[p].steps[f].endTime != runs[q].steps[f].endTime || runs[p].steps[f].outcome == runs[q].steps[f].outcome
    {
      assert Both(s.runs[p], s.runs[q], v, f);
    }
    OneRunChanges(s, code, r, run, v);
  }

  // With the results that have arrived, the body does what the recorded results call for.
  lemma ArrivedActs(outputs: R.Outputs, code: Code, run: Run)
    requires Deterministic(code(run.workflow)) && CallsOk(outputs, code, run)
    ensures var action := code(run.workflow)(run.called, run.arrived);
            !action.Wait? ==> Acts(outputs, code, run.workflow, run.called) == action
  {
  }

  lemma CallOk(outputs: R.Outputs, code: Code, run: Run, name: string, run': Run)
    requires RunOk(outputs, code, run) && run.phase.Active? && Acts(outputs, code, run.workflow, run.called) == CallStep(name)
    requires run' == run.(called := run.called + 1, steps := run.steps[run.called := Looking(name)])
    ensures RunOk(outputs, code, run')
  {
    CalledOk(outputs, code, run, run');
    forall f | f in run'.steps ensures StepOk(outputs, code, run', f) {
      StepStaysOk(outputs, code, run, run', f);
    }
  }

  lemma CalledOk(outputs: R.Outputs, code: Code, run: Run, run': Run)
    requires CallsOk(outputs, code, run) && Acts(outputs, code, run.workflow, run.called).CallStep?
    requires run'.workflow == run.workflow && run'.called == run.called + 1 && run'.arrived == run.arrived
    ensures CallsOk(outputs, code, run')
  {
  }

  // What a step must meet does not depend on the other steps of the run.
  lemma StepStaysOk(outputs: R.Outputs, code: Code, run: Run, run': Run, f: nat)
    requires f in run'.steps && run'.workflow == run.workflow && run.called <= run'.called
    requires if f in run.steps && run'.steps[f] == run.steps[f] then StepOk(outputs, code, run, f)
             else f < run'.called && !run'.steps[f].Recording? && Acts(outputs, code, run.workflow, f) == CallStep(run'.steps[f].name)
    ensures StepOk(outputs, code, run', f)
  {
  }

  lemma FinishOk(outputs: R.Outputs, code: Code, run: Run, o: Outcome)
    requires RunOk(outputs, code, run) && Acts(outputs, code, run.workflow, run.called) == Finish(o)
    ensures RunOk(outputs, code, run.(phase := Finishing(o)))
  {
    assert EndsAt(outputs, code, run.workflow, run.called, o);
    forall f | f in run.steps ensures StepOk(outputs, code, run.(phase := Finishing(o)), f) {
      assert StepOk(outputs, code, run, f);
    }
  }

  lemma ProceedOk(outputs: R.Outputs, code: Code, run: Run)
    requires Deterministic(code(run.workflow)) && RunOk(outputs, code, run) && run.phase.Active?
    ensures RunOk(outputs, code, ProceedRun(run, code))
  {
    ArrivedActs(outputs, code, run);
    match code(run.workflow)(run.called, run.arrived)
    case CallStep(name) => CallOk(outputs, code, run, name, ProceedRun(run, code));
    case Finish(o) => FinishOk(outputs, code, run, o);
    case Wait =>
  }

  // The recorded result of a called step arrives.
  lemma ArrivesOk(outputs: R.Outputs, code: Code, run: Run, f: nat)
    requires RunOk(outputs, code, run) && f in run.steps && StepKey(run.workflow, f) in outputs
    ensures RunOk(outputs, code, Arrives(run, f, outputs[StepKey(run.workflow, f)].outcome))
  {
    var run' := Arrives(run, f, outputs[StepKey(run.workflow, f)].outcome);
    assert StepOk(outputs, code, run, f);
    forall g | g in run'.steps ensures StepOk(outputs, code, run', g) {
      assert StepOk(outputs, code, run, g);
    }
  }

  lemma FailsOk(outputs: R.Outputs, code: Code, run: Run, f: nat, phase: Phase)
    requires RunOk(outputs, code, run) && (phase.Awaiting? || phase.Aborted?)
    ensures RunOk(outputs, code, Fails(run, f, phase))
  {
    var run' := Fails(run, f, phase);
    forall g | g in run'.steps ensures StepOk(outputs, code, run', g) {
      assert StepOk(outputs, code, run, g);
    }
  }

  lemma LookOk(s: State, code: Code, r: nat, f: nat)
    requires Enabled(s, Look(r, f)) && RunOk(s.outputs, code, s.runs[r]) && RowsFollowCode(s.outputs, code, s.runs[r].workflow)
    ensures RunOk(s.outputs, code, LookRun(s, r, f))
  {
    var run, run' := s.runs[r], LookRun(s, r, f);
    assert StepOk(s.outputs, code, run, f);
    if s.progress[run.workflow].Cancelled? {
      FailsOk(s.outputs, code, run, f, Aborted);
    } else if StepKey(run.workflow, f) in s.outputs {
      ArrivesOk(s.outputs, code, run, f);
    } else {
      forall g | g in run'.steps ensures StepOk(s.outputs, code, run', g) {
        assert StepOk(s.outputs, code, run, g);
      }
    }
  }

  // ---------- Each operation ----------

  lemma RecordKeeps(s: State, code: Code, r: nat, f: nat, acknowledged: bool, v: string)
    requires Inv(s, code, v) && Deterministic(code(v)) && Enabled(s, Record(r, f, acknowledged))
    ensures Inv(RecordStep(s, r, f, acknowledged), code, v)
  {
    var run := s.runs[r];
    var key, row := StepKey(run.workflow, f), RowOf(run.steps[f]);
    var s' := s.(outputs := R.Recorded(s.outputs, key, row));
    if key !in s.outputs {
      GrowthKeeps(s, code, r, f, v, s'.outputs);
    }
    if acknowledged {
      var run' := if R.Conflicts(s.outputs, key, row, true) then Fails(run, f, Awaiting) else Arrives(run, f, row.outcome);
      if run.workflow == v {
        assert RunOk(s'.outputs, code, run);
        assert StepOk(s'.outputs, code, run, f);
        FailsOk(s'.outputs, code, run, f, Awaiting);
        ArrivesOk(s'.outputs, code, run, f);
      }
      RunChanges(s', code, r, run', v);
    }
  }

  // The steps of the run change, and nothing else.
  lemma StepsChange(outputs: R.Outputs, code: Code, run: Run, run': Run)
    requires RunOk(outputs, code, run) && run' == run.(steps := run'.steps) && forall g | g in run'.steps :: StepOk(outputs, code, run', g)
    ensures RunOk(outputs, code, run')
  {
  }

  lemma EndStepOk(outputs: R.Outputs, code: Code, run: Run, f: nat, o: Outcome, t: int, run': Run)
    requires RunOk(outputs, code, run) && f in run.steps && run' == run.(steps := run.steps[f := Recording(run.steps[f].name, o, t)])
    requires var key := StepKey(run.workflow, f);
             key in outputs && outputs[key].completedAt == t ==> outputs[key].outcome == o
    ensures RunOk(outputs, code, run')
  {
    forall g | g in run'.steps ensures StepOk(outputs, code, run', g) {
      assert StepOk(outputs, code, run, g);
    }
    StepsChange(outputs, code, run, run');
  }

  lemma EndedApart(s: State, runs: map<nat, Run>, r: nat, f: nat, o: Outcome, t: int, v: string, p: nat, q: nat, g: nat)
    requires StampsDistinct(s.runs, v) && HasStep(s, r, f) && p != q && p in s.runs && q in s.runs
    requires runs == s.runs[r := s.runs[r].(steps := s.runs[r].steps[f := Recording(s.runs[r].steps[f].name, o, t)])]
    requires s.runs[r].workflow == v ==>
               forall x | x in s.runs && Competes(s.runs[x], v, f, o) :: s.runs[x].steps[f].endTime != t
    requires Both(runs[p], runs[q], v, g)
    ensures runs[p].steps[g].endTime != runs[q].steps[g].endTime || runs[p].steps[g].outcome == runs[q].steps[g].outcome
  {
    if p == r && g == f {
      assert Competes(s.runs[q], v, f, o) || s.runs[q].steps[f].outcome == o;
    } else if q == r && g == f {
      assert Competes(s.runs[p], v, f, o) || s.runs[p].steps[f].outcome == o;
    } else {
      assert Both(s.runs[p], s.runs[q], v, g);
    }
  }

  lemma EndedDistinct(s: State, runs: map<nat, Run>, r: nat, f: nat, o: Outcome, t: int, v: string)
    requires StampsDistinct(s.runs, v) && HasStep(s, r, f)
    requires runs == s.runs[r := s.runs[r].(steps := s.runs[r].steps[f := Recording(s.runs[r].steps[f].name, o, t)])]
    requires s.runs[r].workflow == v ==>
               forall x | x in s.runs && Competes(s.runs[x], v, f, o) :: s.runs[x].steps[f].endTime != t
    ensures StampsDistinct(runs, v)
  {
    forall p, q, g | p in runs && q in runs && p != q && Both(runs[p], runs[q], v, g)
      ensures runs[p].steps[g].endTime != runs[q].steps[g].endTime || runs[p].steps[g].outcome == runs[q].steps[g].outcome
    {
      EndedApart(s, runs, r, f, o, t, v, p, q, g);
    }
  }

  lemma EndStepKeeps(s: State, code: Code, r: nat, f: nat, o: Outcome, t: int, v: string)
    requires Inv(s, code, v) && Enabled(s, EndStep(r, f, o, t)) && FreshStamp(s, EndStep(r, f, o, t), v)
    ensures Inv(Next(s, code, EndStep(r, f, o, t)), code, v)
  {
    var run' := s.runs[r].(steps := s.runs[r].steps[f := Recording(s.runs[r].steps[f].name, o, t)]);
    EndedDistinct(s, s.runs[r := run'], r, f, o, t, v);
    if s.runs[r].workflow == v {
      EndStepOk(s.outputs, code, s.runs[r], f, o, t, run');
    }
    OneRunChanges(s, code, r, run', v);
  }

  // Ending the run leaves its steps alone.
  lemma PhaseChanges(outputs: R.Outputs, code: Code, run: Run, phase: Phase)
    requires RunOk(outputs, code, run) && PhaseOk(outputs, code, run.(phase := phase))
    ensures RunOk(outputs, code, run.(phase := phase))
  {
    forall g | g in run.steps ensures StepOk(outputs, code, run.(phase := phase), g) {
      assert StepOk(outputs, code, run, g);
    }
  }

  lemma ReportKeeps(s: State, code: Code, v: string, w: string, o: Outcome, progress: map<string, R.Progress>)
    requires Inv(s, code, v) && (w == v ==> IsOutcome(s.outputs, code, v, o))
    requires v in progress && progress[v].Completed? ==> (v in s.progress && s.progress[v] == progress[v]) || (w == v && progress[v].outcome == o)
    ensures Inv(s.(progress := progress, reported := s.reported + [(w, o)]), code, v)
  {
  }

  lemma RecordOutcomeKeeps(s: State, code: Code, r: nat, acknowledged: bool, v: string)
    requires Inv(s, code, v) && Enabled(s, RecordOutcome(r, acknowledged))
    ensures Inv(RecordOutcomeStep(s, r, acknowledged), code, v)
  {
    var run := s.runs[r];
    var cancelled := s.progress[run.workflow].Cancelled?;
    var phase := if cancelled then Aborted else Done(run.phase.outcome);
    var s' := if cancelled then s
              else s.(progress := s.progress[run.workflow := R.Completed(run.phase.outcome)],
                      reported := s.reported + [(run.workflow, run.phase.outcome)]);
    if run.workflow == v {
      PhaseChanges(s.outputs, code, run, phase);
    }
    if !cancelled {
      ReportKeeps(s, code, v, run.workflow, run.phase.outcome, s'.progress);
    }
    if acknowledged {
      RunChanges(s', code, r, run.(phase := phase), v);
    }
  }

  lemma AwaitKeeps(s: State, code: Code, r: nat, v: string)
    requires Inv(s, code, v) && Enabled(s, Await(r))
    ensures Inv(Next(s, code, Await(r)), code, v)
  {
    var run, o := s.runs[r], s.progress[s.runs[r].workflow].outcome;
    if run.workflow == v {
      PhaseChanges(s.outputs, code, run, Done(o));
    }
    RunChanges(s, code, r, run.(phase := Done(o)), v);
    ReportKeeps(SetRun(s, r, run.(phase := Done(o))), code, v, run.workflow, o, s.progress);
  }

  lemma ProceedsQuietly(run: Run, code: Code)
    ensures NoNewRecorder(run, ProceedRun(run, code))
  {
  }

  lemma LooksQuietly(s: State, r: nat, f: nat)
    requires Enabled(s, Look(r, f))
    ensures NoNewRecorder(s.runs[r], LookRun(s, r, f))
  {
  }

  lemma ProceedKeeps(s: State, code: Code, r: nat, v: string)
    requires Inv(s, code, v) && Deterministic(code(v)) && Enabled(s, Proceed(r))
    ensures Inv(Next(s, code, Proceed(r)), code, v)
  {
    var run' := ProceedRun(s.runs[r], code);
    ProceedsQuietly(s.runs[r], code);
    assert run'.workflow == v ==> RunOk(s.outputs, code, run') by {
      if s.runs[r].workflow == v {
        ProceedOk(s.outputs, code, s.runs[r]);
      }
    }
    RunChanges(s, code, r, run', v);
  }

  lemma LookKeeps(s: State, code: Code, r: nat, f: nat, v: string)
    requires Inv(s, code, v) && Enabled(s, Look(r, f))
    ensures Inv(Next(s, code, Look(r, f)), code, v)
  {
    var run' := LookRun(s, r, f);
    LooksQuietly(s, r, f);
    assert run'.workflow == v ==> RunOk(s.outputs, code, run') by {
      if s.runs[r].workflow == v {
        LookOk(s, code, r, f);
      }
    }
    RunChanges(s, code, r, run', v);
  }

  lemma StepKeeps(s: State, code: Code, op: Op, v: string)
    requires Inv(s, code, v) && Deterministic(code(v)) && Enabled(s, op) && FreshStamp(s, op, v)
    ensures Inv(Next(s, code, op), code, v)
  {
    match op
    case Start(r, w) => RunChanges(s, code, r, Run(w, 0, map[], map[], Active), v);
    case Proceed(r) => ProceedKeeps(s, code, r, v);
    case Look(r, f) => LookKeeps(s, code, r, f, v);
    case EndStep(r, f, o, t) => EndStepKeeps(s, code, r, f, o, t, v);
    case Record(r, f, ack) => RecordKeeps(s, code, r, f, ack, v);
    case RecordOutcome(r, ack) => RecordOutcomeKeeps(s, code, r, ack, v);
    case Await(r) => AwaitKeeps(s, code, r, v);
    case _ =>
  }

  lemma {:induction false} ExecKeeps(s: State, code: Code, ops: seq<Op>, v: string)
    requires Inv(s, code, v) && Deterministic(code(v)) && Trace(s, code, ops) && Stamped(s, code, ops, v)
    ensures Inv(Exec(s, code, ops), code, v)
    decreases |ops|
  {
    if |ops| > 0 {
      StepKeeps(s, code, ops[0], v);
      ExecKeeps(Next(s, code, ops[0]), code, ops[1..], v);
    }
  }

  // ---------- Main results ----------

  // The results that the runs of v have received are the recorded ones, and no run has met another step's checkpoint.
  predicate ResultsAgree(s: State, v: string) {
    forall r | r in s.runs && s.runs[r].workflow == v ::
      Within(s.runs[r].arrived, Recorded(s.outputs, v, s.runs[r].called)) && !s.runs[r].phase.Misaligned?
  }

  // A function ID is one step, for all runs and in the table.
  ghost predicate StepsAgree(s: State, v: string) {
    && (forall r, q, f | HasStep(s, r, f) && HasStep(s, q, f) && s.runs[r].workflow == v == s.runs[q].workflow ::
          s.runs[r].steps[f].name == s.runs[q].steps[f].name)
    && (forall r, f | HasStep(s, r, f) && s.runs[r].workflow == v && StepKey(v, f) in s.outputs ::
          s.outputs[StepKey(v, f)].functionName == s.runs[r].steps[f].name)
  }

  predicate OutcomesAgree(s: State, v: string) {
    forall i, j | 0 <= i < |s.reported| && 0 <= j < |s.reported| && s.reported[i].0 == v == s.reported[j].0 ::
      s.reported[i].1 == s.reported[j].1
  }

  lemma StepIsRecorded(s: State, code: Code, v: string, r: nat, f: nat)
    requires Inv(s, code, v) && HasStep(s, r, f) && s.runs[r].workflow == v
    ensures Acts(s.outputs, code, v, f) == CallStep(s.runs[r].steps[f].name)
    ensures StepKey(v, f) in s.outputs ==> s.outputs[StepKey(v, f)].functionName == s.runs[r].steps[f].name
  {
    assert StepOk(s.outputs, code, s.runs[r], f);
  }

  lemma StepsDoAgree(s: State, code: Code, v: string)
    requires Inv(s, code, v)
    ensures StepsAgree(s, v)
  {
    forall r, q, f | HasStep(s, r, f) && HasStep(s, q, f) && s.runs[r].workflow == v == s.runs[q].workflow
      ensures s.runs[r].steps[f].name == s.runs[q].steps[f].name
    {
      StepIsRecorded(s, code, v, r, f);
      StepIsRecorded(s, code, v, q, f);
    }
    forall r, f | HasStep(s, r, f) && s.runs[r].workflow == v && StepKey(v, f) in s.outputs
      ensures s.outputs[StepKey(v, f)].functionName == s.runs[r].steps[f].name
    {
      StepIsRecorded(s, code, v, r, f);
    }
  }

  lemma ResultsDoAgree(s: State, code: Code, v: string)
    requires Inv(s, code, v)
    ensures ResultsAgree(s, v)
  {
  }

  lemma OutcomesDoAgree(s: State, code: Code, v: string)
    requires Inv(s, code, v)
    ensures OutcomesAgree(s, v)
  {
    forall i, j | 0 <= i < |s.reported| && 0 <= j < |s.reported| && s.reported[i].0 == v == s.reported[j].0
      ensures s.reported[i].1 == s.reported[j].1
    {
      OutcomeUnique(s.outputs, code, v, s.reported[i].1, s.reported[j].1);
    }
  }

  /**
  Agreement with steps in parallel: in whatever order the steps of all runs of a workflow end, are recorded and arrive, and
  whoever crashes meanwhile, the results a run has received are the recorded ones, one function ID is one step for all runs,
  no run meets another step's checkpoint, and all outcomes recorded or returned are equal.
  */
  lemma ParallelAgreement(s: State, code: Code, ops: seq<Op>, v: string)
    requires Initial(s) && Deterministic(code(v)) && Trace(s, code, ops) && Stamped(s, code, ops, v)
    ensures var e := Exec(s, code, ops); ResultsAgree(e, v) && StepsAgree(e, v) && OutcomesAgree(e, v)
  {
    ExecKeeps(s, code, ops, v);
    ResultsDoAgree(Exec(s, code, ops), code, v);
    StepsDoAgree(Exec(s, code, ops), code, v);
    OutcomesDoAgree(Exec(s, code, ops), code, v);
  }

  // No run is executing this step.
  predicate NotExecuting(s: State, key: StepKey) {
    forall r | r in s.runs && s.runs[r].workflow == key.workflow && key.functionId in s.runs[r].steps ::
      !s.runs[r].steps[key.functionId].Executing?
  }

  lemma OutputsGrow(s: State, code: Code, op: Op)
    requires Enabled(s, op)
    ensures R.Extends(s.outputs, Next(s, code, op).outputs)
  {
  }

  lemma StillNotExecuting(s: State, code: Code, op: Op, key: StepKey)
    requires Enabled(s, op) && key in s.outputs && NotExecuting(s, key)
    ensures NotExecuting(Next(s, code, op), key)
  {
  }

  /** A step that is recorded, and that no run is in the middle of, is never executed again. */
  lemma {:induction false} RecordedStepsAreNotExecuted(s: State, code: Code, ops: seq<Op>, key: StepKey)
    requires Trace(s, code, ops) && key in s.outputs && NotExecuting(s, key)
    ensures NotExecuting(Exec(s, code, ops), key)
    decreases |ops|
  {
    if |ops| > 0 {
      OutputsGrow(s, code, ops[0]);
      StillNotExecuting(s, code, ops[0], key);
      RecordedStepsAreNotExecuted(Next(s, code, ops[0]), code, ops[1..], key);
    }
  }

  // ---------- Which bodies are deterministic ----------

  function Only(a: Results, ids: set<nat>): Results {
    map f | f in a && f in ids :: a[f]
  }

  // A body that awaits certain steps before each of its actions, and looks at their results only.
  function Awaited(needs: nat -> set<nat>, act: Body): Body {
    (n: nat, arrived: Results) => if needs(n) <= arrived.Keys then act(n, Only(arrived, needs(n))) else Wait
  }

  /** What is awaited may be all, some or none of the steps called so far: the body is deterministic. */
  lemma AwaitedIsDeterministic(needs: nat -> set<nat>, act: Body)
    ensures Deterministic(Awaited(needs, act))
  {
    forall n: nat, a: Results, b: Results | Within(a, b) && needs(n) <= a.Keys ensures Only(a, needs(n)) == Only(b, needs(n)) {
    }
  }

  // The results of steps 0 .. n-1, all of which have arrived.
  function InOrder(arrived: Results, n: nat): seq<Outcome>
    requires forall f: nat | f < n :: f in arrived
  {
    seq(n, (f: nat) requires f in arrived => arrived[f])
  }

  // A body of `Replay`, which calls a step only when all earlier ones have ended.
  function Sequential(body: R.Body): Body {
    (n: nat, arrived: Results) =>
      if forall f: nat | f < n :: f in arrived then
        match body(InOrder(arrived, n))
        case CallStep(name) => CallStep(name)
        case Finish(o) => Finish(o)
      else Wait
  }

  /** Bodies whose steps follow one another are a special case. */
  lemma SequentialIsDeterministic(body: R.Body)
    ensures Deterministic(Sequential(body))
  {
    forall n: nat, a: Results, b: Results | Within(a, b) && (forall f: nat | f < n :: f in a) ensures InOrder(a, n) == InOrder(b, n) {
    }
  }

  // ---------- Racing steps ----------

  lemma Unfold(s: State, code: Code, op: Op, ops: seq<Op>)
    requires Enabled(s, op) && Trace(Next(s, code, op), code, ops)
    ensures Trace(s, code, [op] + ops) && Exec(s, code, [op] + ops) == Exec(Next(s, code, op), code, ops)
  {
    assert ([op] + ops)[1..] == ops;
  }

  lemma {:induction false} Append(s: State, code: Code, first: seq<Op>, second: seq<Op>)
    requires Trace(s, code, first) && Trace(Exec(s, code, first), code, second)
    ensures Trace(s, code, first + second) && Exec(s, code, first + second) == Exec(Exec(s, code, first), code, second)
    decreases |first|
  {
    if |first| == 0 {
      assert first + second == second;
    } else {
      Append(Next(s, code, first[0]), code, first[1..], second);
      assert (first + second)[1..] == first[1..] + second;
    }
  }

  // Calls two steps and goes on with the one that ends first.
  function Race(n: nat, arrived: Results): Action {
    if n == 0 then CallStep("a")
    else if n == 1 then CallStep("b")
    else if 0 in arrived then CallStep("x")
    else if 1 in arrived then CallStep("y")
    else Wait
  }

  lemma RaceIsNotDeterministic()
    ensures !Deterministic(Race)
  {
    var a, b: Results := map[1 := Returned("")], map[0 := Returned(""), 1 := Returned("")];
    assert Within(a, b) && Race(2, a) == CallStep("y") && Race(2, b) == CallStep("x");
  }

  const Row: string -> R.StepRow := name => R.StepRow(name, Returned(""), 7)

  // Run r has called both steps.
  function BothCalled(outputs: R.Outputs, r: nat): State {
    State(outputs, map["w" := R.Active], map[r := Run("w", 2, map[], map[0 := Looking("a"), 1 := Looking("b")], Active)], [])
  }

  lemma CallsBoth(s: State, code: Code, r: nat) returns (ops: seq<Op>)
    requires s == State(s.outputs, map["w" := R.Active], map[], []) && code("w") == Race
    ensures Trace(s, code, ops) && Exec(s, code, ops) == BothCalled(s.outputs, r)
  {
    var s1 := Next(s, code, Start(r, "w"));
    var s2 := Next(s1, code, Proceed(r));
    var s3 := Next(s2, code, Proceed(r));
    Unfold(s2, code, Proceed(r), []);
    Unfold(s1, code, Proceed(r), [Proceed(r)] + []);
    Unfold(s, code, Start(r, "w"), [Proceed(r)] + ([Proceed(r)] + []));
    ops := [Start(r, "w")] + ([Proceed(r)] + ([Proceed(r)] + []));
  }

  // The step of the run is looked up, executed and recorded.
  lemma StepEnds(s: State, code: Code, r: nat, f: nat, s': State) returns (ops: seq<Op>)
    requires Enabled(s, Look(r, f)) && s.progress[s.runs[r].workflow].Active? && StepKey(s.runs[r].workflow, f) !in s.outputs
    requires s' == SetRun(s, r, Arrives(s.runs[r], f, Returned(""))).(
                     outputs := s.outputs[StepKey(s.runs[r].workflow, f) := Row(s.runs[r].steps[f].name)])
    ensures Trace(s, code, ops) && Exec(s, code, ops) == s'
  {
    var s1 := Next(s, code, Look(r, f));
    var s2 := Next(s1, code, EndStep(r, f, Returned(""), 7));
    var s3 := Next(s2, code, Record(r, f, true));
    assert s3.runs[r].steps == s'.runs[r].steps;
    assert s3.runs == s'.runs;
    Unfold(s2, code, Record(r, f, true), []);
    Unfold(s1, code, EndStep(r, f, Returned(""), 7), [Record(r, f, true)] + []);
    Unfold(s, code, Look(r, f), [EndStep(r, f, Returned(""), 7)] + ([Record(r, f, true)] + []));
    ops := [Look(r, f)] + ([EndStep(r, f, Returned(""), 7)] + ([Record(r, f, true)] + []));
  }

  // Step f has won the race of run r, and the body has called the next step.
  function Won(outputs: R.Outputs, r: nat, f: nat): State {
    State(outputs, map["w" := R.Active],
          map[r := Run("w", 3, map[f := Returned("")],
                       if f == 0 then map[1 := Looking("b"), 2 := Looking("x")] else map[0 := Looking("a"), 2 := Looking("y")], Active)], [])
  }

  lemma WonRun(code: Code, r: nat, f: nat, run: Run)
    requires code("w") == Race && f < 2 && run == Arrives(BothCalled(map[], r).runs[r], f, Returned(""))
    ensures ProceedRun(run, code) == Won(map[], r, f).runs[r]
  {
  }

  lemma Wins(outputs: R.Outputs, code: Code, r: nat, f: nat, outputs': R.Outputs) returns (ops: seq<Op>)
    requires code("w") == Race && f < 2 && StepKey("w", f) !in outputs
    requires outputs' == outputs[StepKey("w", f) := Row(if f == 0 then "a" else "b")]
    ensures Trace(BothCalled(outputs, r), code, ops) && Exec(BothCalled(outputs, r), code, ops) == Won(outputs', r, f)
  {
    var s := BothCalled(outputs, r);
    var m := SetRun(s, r, Arrives(s.runs[r], f, Returned(""))).(outputs := outputs');
    var first := StepEnds(s, code, r, f, m);
    WonRun(code, r, f, m.runs[r]);
    assert Next(m, code, Proceed(r)) == Won(outputs', r, f);
    Unfold(m, code, Proceed(r), []);
    Append(s, code, first, [Proceed(r)] + []);
    ops := first + ([Proceed(r)] + []);
  }

  // Run 0: step 0 wins, and the step after it is recorded.
  lemma FirstRun(s: State, code: Code) returns (ops: seq<Op>, outputs: R.Outputs)
    requires s == State(map[], map["w" := R.Active], map[], []) && code("w") == Race
    ensures outputs == map[StepKey("w", 0) := Row("a"), StepKey("w", 2) := Row("x")]
    ensures Trace(s, code, ops) && Exec(s, code, ops) == State(outputs, map["w" := R.Active], map[], [])
  {
    var calls := CallsBoth(s, code, 0);
    var one: R.Outputs := map[StepKey("w", 0) := Row("a")];
    var wins := Wins(map[], code, 0, 0, one);
    var won := Won(one, 0, 0);
    outputs := one[StepKey("w", 2) := Row("x")];
    var m := SetRun(won, 0, Arrives(won.runs[0], 2, Returned(""))).(outputs := outputs);
    var ends := StepEnds(won, code, 0, 2, m);
    Unfold(m, code, Crash(0), []);
    assert Next(m, code, Crash(0)).runs == map[];
    Append(won, code, ends, [Crash(0)] + []);
    Append(BothCalled(map[], 0), code, wins, ends + ([Crash(0)] + []));
    Append(s, code, calls, wins + (ends + ([Crash(0)] + [])));
    ops := calls + (wins + (ends + ([Crash(0)] + [])));
  }

  // Run 1: step 1 wins.
  lemma SecondRun(outputs: R.Outputs, code: Code) returns (ops: seq<Op>)
    requires outputs == map[StepKey("w", 0) := Row("a"), StepKey("w", 2) := Row("x")] && code("w") == Race
    ensures var s := State(outputs, map["w" := R.Active], map[], []);
            Trace(s, code, ops) && 1 in Exec(s, code, ops).runs
            && Exec(s, code, ops).runs[1].workflow == "w" && Exec(s, code, ops).runs[1].phase.Misaligned?
  {
    var s := State(outputs, map["w" := R.Active], map[], []);
    var calls := CallsBoth(s, code, 1);
    var more := outputs[StepKey("w", 1) := Row("b")];
    var wins := Wins(outputs, code, 1, 1, more);
    var won := Won(more, 1, 1);
    assert LookRun(won, 1, 2).phase.Misaligned?;
    Unfold(won, code, Look(1, 2), []);
    Append(BothCalled(outputs, 1), code, wins, [Look(1, 2)] + []);
    Append(s, code, calls, wins + ([Look(1, 2)] + []));
    ops := calls + (wins + ([Look(1, 2)] + []));
  }

  /** A body that goes on with whichever of two steps ends first can meet another step's checkpoint when it is run again. */
  lemma RacingStepsMisalign() returns (s: State, code: Code, ops: seq<Op>)
    ensures Initial(s) && !Deterministic(code("w")) && Trace(s, code, ops)
    ensures var e := Exec(s, code, ops); 1 in e.runs && e.runs[1].workflow == "w" && e.runs[1].phase.Misaligned?
  {
    RaceIsNotDeterministic();
    code := w => Race;
    s := State(map[], map["w" := R.Active], map[], []);
    var first, outputs := FirstRun(s, code);
    var second := SecondRun(outputs, code);
    Append(s, code, first, second);
    ops := first + second;
  }
}
