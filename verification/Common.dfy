/** Small datatypes shared by the modules of the project. */
module Common {

  datatype Option<+T> = None | Some(value: T)

  /** What a step or a workflow body ended with. Values and errors are the serialized text that the database stores. */
  datatype Outcome = Returned(value: string) | Threw(error: string)

  /** A row of `operation_outputs` is keyed by (workflow_uuid, function_id). */
  datatype StepKey = StepKey(workflow: string, functionId: nat)

  lemma SubsetSize<T>(a: set<T>, b: set<T>)
    requires a <= b
    ensures |a| <= |b|
  {
    assert b == a + (b - a);
  }
}
