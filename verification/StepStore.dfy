/** The methods of the system database and of the executor that write, read and retry one step. */
module StepStore {
  import opened Common
  import opened Replay

  datatype Lookup = Missing | Found(row: StepRow) | WorkflowCancelled

  class OperationOutputs {
    var outputs: Outputs
    var progress: map<string, Progress>

    constructor ()
      ensures outputs == map[] && progress == map[]
    {
      outputs := map[];
      progress := map[];
    }

    // Insert unless present, read back the stored end stamp, and compare it with ours.
    method RecordOperationResult(key: StepKey, row: StepRow, checkConflict: bool) returns (conflict: bool)
      modifies this`outputs
      ensures outputs == Recorded(old(outputs), key, row)
      ensures conflict == Conflicts(old(outputs), key, row, checkConflict)
    {
      if key !in outputs {
        outputs := outputs[key := row];
      }
      var stored := outputs[key].completedAt;
      conflict := checkConflict && stored != row.completedAt;
    }

    // The cancellation check comes before the lookup.
    method GetOperationResultAndThrowIfCancelled(key: StepKey) returns (found: Lookup)
      ensures found.WorkflowCancelled? <==> key.workflow in progress && progress[key.workflow].Cancelled?
      ensures found.Found? ==> key in outputs && found.row == outputs[key]
      ensures found.Missing? ==> key !in outputs
    {
      if key.workflow in progress && progress[key.workflow].Cancelled? {
        return WorkflowCancelled;
      }
      found := if key in outputs then Found(outputs[key]) else Missing;
    }
  }

  // ---------- The retry loop of a step ----------

  datatype Verdict = Retry | GiveUp | PredicateFailed(error: string)

  // How the i-th attempt would end. The workflow's cancellation is checked before each attempt.
  datatype Attempt = Succeeds(value: string) | Fails(error: string, verdict: Verdict) | Interrupted

  datatype StepEnd =
    | Value(value: string)
    | Failed(error: string)
    | RetriesExceeded(errors: seq<string>)
    | Stopped

  const MAX_RETRY_INTERVAL_SEC := 3600.0

  // An attempt after which no other is made. Without retries the first one is.
  predicate Decisive(retriesAllowed: bool, a: Attempt) {
    !(retriesAllowed && a.Fails? && a.verdict.Retry?)
  }

  // The retry predicate is asked only if there are retries; if it fails itself, its error is the step's.
  function EndOf(retriesAllowed: bool, a: Attempt): StepEnd {
    match a
    case Succeeds(v) => Value(v)
    case Interrupted => Stopped
    case Fails(e, verdict) => Failed(if retriesAllowed && verdict.PredicateFailed? then verdict.error else e)
  }

  function AttemptLimit(retriesAllowed: bool, maxAttempts: nat): nat {
    if retriesAllowed then maxAttempts else 1
  }

  function Power(rate: real, k: nat): (p: real)
    ensures rate >= 1.0 ==> p >= 1.0
  {
    if k == 0 then 1.0 else rate * Power(rate, k - 1)
  }

  function Capped(x: real): real {
    if x < MAX_RETRY_INTERVAL_SEC then x else MAX_RETRY_INTERVAL_SEC
  }

  // The wait before the (k+2)-th attempt, as the loop computes it.
  function Wait(interval: real, rate: real, k: nat): real {
    if k == 0 then interval else Capped(Wait(interval, rate, k - 1) * rate)
  }

  // All the waits of a step that makes n retries.
  function Waits(interval: real, rate: real, n: nat): (w: seq<real>)
    ensures |w| == n
  {
    if n == 0 then [] else Waits(interval, rate, n - 1) + [Wait(interval, rate, n - 1)]
  }

  lemma NonNegativeProduct(a: real, b: real)
    requires a >= 0.0 && b >= 0.0
    ensures a * b >= 0.0
  {
  }

  lemma CapTwice(x: real, rate: real)
    requires x >= 0.0 && rate >= 1.0
    ensures Capped(Capped(x) * rate) == Capped(x * rate)
  {
    NonNegativeProduct(x, rate - 1.0);
    assert x * (rate - 1.0) == x * rate - x;
    assert MAX_RETRY_INTERVAL_SEC * rate >= MAX_RETRY_INTERVAL_SEC;
  }

  function Scaled(interval: real, rate: real, k: nat): (x: real)
    ensures interval >= 0.0 && rate >= 1.0 ==> x >= 0.0
  {
    interval * Power(rate, k)
  }

  lemma ScaledStep(interval: real, rate: real, k: nat)
    ensures Scaled(interval, rate, 0) == interval
    ensures Scaled(interval, rate, k + 1) == Scaled(interval, rate, k) * rate
  {
    var p := Power(rate, k);
    assert interval * (rate * p) == (interval * p) * rate;
  }

  /** The exponential backoff in closed form, for a rate that does not shrink the interval. */
  lemma {:induction false} WaitIsCappedExponential(interval: real, rate: real, k: nat)
    requires interval >= 0.0 && rate >= 1.0 && k > 0
    ensures Wait(interval, rate, k) == Capped(Scaled(interval, rate, k))
  {
    ScaledStep(interval, rate, k - 1);
    if k > 1 {
      WaitIsCappedExponential(interval, rate, k - 1);
      CapTwice(Scaled(interval, rate, k - 1), rate);
    }
  }

  /** The first wait is not capped, whatever the warning says: the bound holds exactly when the configured interval meets it. */
  lemma EveryWaitBoundedExactly(interval: real, rate: real)
    ensures (forall k: nat :: Wait(interval, rate, k) <= MAX_RETRY_INTERVAL_SEC) <==> interval <= MAX_RETRY_INTERVAL_SEC
  {
    assert Wait(interval, rate, 0) == interval;
  }

  // The first n attempts failed and were retried.
  predicate AllRetried(attempts: seq<Attempt>, n: nat)
    requires n <= |attempts|
  {
    forall i | 0 <= i < n :: attempts[i].Fails? && attempts[i].verdict.Retry?
  }

  // Their errors, in order.
  function Errors(attempts: seq<Attempt>, n: nat): seq<string>
    requires n <= |attempts| && AllRetried(attempts, n)
  {
    if n == 0 then [] else Errors(attempts, n - 1) + [attempts[n - 1].error]
  }

  /** The retry loop, for a step with retries. */
  method RetryLoop(maxAttempts: nat, interval: real, rate: real, attempts: seq<Attempt>)
    returns (end: StepEnd, made: nat, waits: seq<real>)
    requires |attempts| >= maxAttempts
    ensures made <= maxAttempts
    ensures AllRetried(attempts, maxAttempts) ==> made == maxAttempts && end == RetriesExceeded(Errors(attempts, maxAttempts))
    ensures !AllRetried(attempts, maxAttempts) ==>
              made > 0 && AllRetried(attempts, made - 1) && Decisive(true, attempts[made - 1]) && end == EndOf(true, attempts[made - 1])
    ensures |waits| == (if made == 0 then 0 else made - 1)
    ensures waits == Waits(interval, rate, |waits|)
  {
    made := 0;
    waits := [];
    var errors: seq<string> := [];
    var intervalSeconds := interval;
    while made < maxAttempts
      invariant made <= maxAttempts
      invariant AllRetried(attempts, made) && errors == Errors(attempts, made)
      invariant |waits| == (if made == maxAttempts && made > 0 then made - 1 else made)
      invariant waits == Waits(interval, rate, |waits|)
      invariant made < maxAttempts ==> intervalSeconds == Wait(interval, rate, made)
    {
      var attempt := attempts[made];
      made := made + 1;
      if Decisive(true, attempt) {
        end := EndOf(true, attempt);
        return;
      }
      errors := errors + [attempt.error];
      if made < maxAttempts {
        waits := waits + [intervalSeconds];
        intervalSeconds := Capped(intervalSeconds * rate);
      }
    }
    end := RetriesExceeded(errors);
  }

  /**
  The attempts at a step. The result is that of the first decisive attempt: every attempt before it was made and
  none after it; without one, all the errors are reported in order. A wait follows each failed attempt but the last,
  so a step without retries makes one attempt, waits for nothing and never reports that its retries are exceeded.
  */
  method RunAttempts(retriesAllowed: bool, maxAttempts: nat, interval: real, rate: real, attempts: seq<Attempt>)
    returns (end: StepEnd, made: nat, waits: seq<real>)
    requires |attempts| >= AttemptLimit(retriesAllowed, maxAttempts)
    ensures var limit := AttemptLimit(retriesAllowed, maxAttempts);
            && made <= limit
            && (retriesAllowed && AllRetried(attempts, limit) ==>
                  made == limit && end == RetriesExceeded(Errors(attempts, limit)))
            && (!(retriesAllowed && AllRetried(attempts, limit)) ==>
                  && made > 0 && AllRetried(attempts, made - 1) && Decisive(retriesAllowed, attempts[made - 1])
                  && end == EndOf(retriesAllowed, attempts[made - 1]))
    ensures |waits| == (if made == 0 then 0 else made - 1)
    ensures waits == Waits(interval, rate, |waits|)
  {
    if retriesAllowed {
      end, made, waits := RetryLoop(maxAttempts, interval, rate, attempts);
    } else {
      end, made, waits := EndOf(false, attempts[0]), 1, [];
    }
  }
}
