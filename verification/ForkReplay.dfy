/** Running a fork: what the copied checkpoints mean for the executions of the forked workflow. */
module ForkReplay {
  import opened Common
  import opened Replay
  import Fork

  // The checkpoints of steps before s, copied from one workflow to another.
  function Copied(outputs: Outputs, orig: string, fork: string, s: nat): Outputs {
    outputs + map f: nat | f < s && StepKey(orig, f) in outputs :: StepKey(fork, f) := outputs[StepKey(orig, f)]
  }

  function Forked(st: State, orig: string, fork: string, s: nat): State {
    st.(outputs := Copied(st.outputs, orig, fork, s), progress := st.progress[fork := Active])
  }

  // The ID of the fork is new, and the fork runs the same body.
  ghost predicate NewFork(st: State, code: Code, orig: string, fork: string) {
    && orig != fork && code(fork) == code(orig) && fork !in st.progress
    && (forall k | k in st.outputs :: k.workflow != fork)
    && (forall r | r in st.runs :: st.runs[r].workflow != fork)
    && (forall i | 0 <= i < |st.reported| :: st.reported[i].0 != fork)
  }

  // The replay machine's rows of a workflow are the outputs of the fork's data.
  ghost predicate Holds(outputs: Outputs, w: string, d: Fork.Data) {
    && (forall f: nat :: StepKey(w, f) in outputs <==> f in d.outputs)
    && (forall f: nat | f in d.outputs ::
          outputs[StepKey(w, f)].outcome == d.outputs[f].outcome && outputs[StepKey(w, f)].functionName == d.outputs[f].name)
  }

  /** Copying in the replay machine is what the fork's statement does to the checkpoints. */
  lemma CopiedIsFork(outputs: Outputs, orig: string, fork: string, s: nat, d: Fork.Data, replacements: map<string, string>)
    requires Holds(outputs, orig, d) && orig != fork && forall k | k in outputs :: k.workflow != fork
    ensures Holds(Copied(outputs, orig, fork, s), fork, Fork.ForkAt(d, s, replacements))
    ensures Holds(Copied(outputs, orig, fork, s), orig, d)
  {
  }

  lemma CopiedExtends(outputs: Outputs, orig: string, fork: string, s: nat)
    requires forall k | k in outputs :: k.workflow != fork
    ensures Extends(outputs, Copied(outputs, orig, fork, s))
    ensures forall k | k in Copied(outputs, orig, fork, s) && k !in outputs ::
              k.workflow == fork && k.functionId < s && StepKey(orig, k.functionId) in outputs
              && Copied(outputs, orig, fork, s)[k] == outputs[StepKey(orig, k.functionId)]
  {
  }

  lemma CopiedHistory(outputs: Outputs, orig: string, fork: string, s: nat, n: nat)
    requires n <= s && Prefix(outputs, orig, n)
    ensures Prefix(Copied(outputs, orig, fork, s), fork, n)
    ensures Outcomes(Copied(outputs, orig, fork, s), fork, n) == Outcomes(outputs, orig, n)
  {
    var b := Copied(outputs, orig, fork, s);
    forall i: nat | i < n ensures StepKey(fork, i) in b && b[StepKey(fork, i)] == outputs[StepKey(orig, i)] {
      assert StepKey(orig, i) in outputs;
    }
  }

  lemma CopiedRowsFollow(outputs: Outputs, code: Code, orig: string, fork: string, s: nat)
    requires RowsFollowCode(outputs, code, orig) && code(fork) == code(orig) && forall k | k in outputs :: k.workflow != fork
    ensures RowsFollowCode(Copied(outputs, orig, fork, s), code, fork)
  {
    var b := Copied(outputs, orig, fork, s);
    CopiedExtends(outputs, orig, fork, s);
    forall k | k in b && k.workflow == fork
      ensures Prefix(b, fork, k.functionId)
      ensures code(fork)(Outcomes(b, fork, k.functionId)) == CallStep(b[k].functionName)
    {
      assert StepKey(orig, k.functionId) in outputs;
      CopiedHistory(outputs, orig, fork, s, k.functionId);
    }
  }

  /** The fork can be run: everything that replay keeps of a workflow holds of it, with the copied checkpoints. */
  lemma ForkedStateOk(st: State, code: Code, orig: string, fork: string, s: nat)
    requires Inv(st, code, orig) && NewFork(st, code, orig, fork)
    ensures Inv(Forked(st, orig, fork, s), code, fork)
  {
    CopiedRowsFollow(st.outputs, code, orig, fork, s);
  }

  /** ... and of every other workflow it stays as it was. */
  lemma OthersStayOk(st: State, code: Code, orig: string, fork: string, s: nat, v: string)
    requires Inv(st, code, v) && NewFork(st, code, orig, fork) && v != fork
    ensures Inv(Forked(st, orig, fork, s), code, v)
  {
    var b := Copied(st.outputs, orig, fork, s);
    CopiedExtends(st.outputs, orig, fork, s);
    forall k | k in b && k.workflow == v
      ensures Prefix(b, v, k.functionId) && code(v)(Outcomes(b, v, k.functionId)) == CallStep(b[k].functionName)
    {
      OutcomesStable(st.outputs, b, v, k.functionId);
    }
    forall q | q in st.runs && st.runs[q].workflow == v ensures RunOk(b, code, st.runs[q]) {
      RunStable(st.outputs, b, code, st.runs[q]);
    }
    if v in st.progress && st.progress[v].Completed? {
      OutcomeStable(st.outputs, b, code, v, st.progress[v].outcome);
    }
    forall i | 0 <= i < |st.reported| && st.reported[i].0 == v ensures IsOutcome(b, code, v, st.reported[i].1) {
      OutcomeStable(st.outputs, b, code, v, st.reported[i].1);
    }
  }

  /**
  However the fork is run, crashed and run again: no run of it ever executes a step before s that the original had
  recorded; it receives the original's result of that step instead.
  */
  lemma ForkedRunReplaysCopiedSteps(st: State, code: Code, orig: string, fork: string, s: nat, ops: seq<Op>, r: nat, f: nat)
    requires Inv(st, code, orig) && NewFork(st, code, orig, fork) && f < s && StepKey(orig, f) in st.outputs
    requires Trace(Forked(st, orig, fork, s), code, ops) && Stamped(Forked(st, orig, fork, s), code, ops, fork)
    requires var e := Exec(Forked(st, orig, fork, s), code, ops); r in e.runs && e.runs[r].workflow == fork
    ensures var run := Exec(Forked(st, orig, fork, s), code, ops).runs[r];
            && !(run.phase.Executing? && |run.results| == f)
            && (f < |run.results| ==> run.results[f] == st.outputs[StepKey(orig, f)].outcome)
  {
    var s0, key := Forked(st, orig, fork, s), StepKey(fork, f);
    CopiedExtends(st.outputs, orig, fork, s);
    assert key in s0.outputs && s0.outputs[key] == st.outputs[StepKey(orig, f)];
    assert NotExecuting(s0, key);
    ForkedStateOk(st, code, orig, fork, s);
    RecordedStepsAreNotExecuted(s0, code, ops, key);
    ExecKeeps(s0, code, ops, fork);
    var e := Exec(s0, code, ops);
    assert RunOk(e.outputs, code, e.runs[r]);
    assert e.runs[r].phase.Executing? ==> e.runs[r].Key() != key;
  }
}
