/** `findFirstApiExecutionError` (src/utils/api.ts): the first step output,
    in insertion order, that carries an error. */
module ApiUtils {
  import opened Base
  import opened Records
  import opened Model

  /** The message for the first erroring output of `outputs`, or `None`. */
  function FirstError(outputs: Record<StepOutput>): (r: Option<string>)
    ensures r.None? <==> forall i :: 0 <= i < |outputs| ==> outputs[i].1.error == ""
    ensures r.Some? ==>
      exists i :: 0 <= i < |outputs| && outputs[i].1.error != "" &&
        (forall j :: 0 <= j < i ==> outputs[j].1.error == "") &&
        r.value == "Error in " + outputs[i].0 + ": " + outputs[i].1.error
    decreases |outputs|
  {
    if |outputs| == 0 then None
    else if outputs[0].1.error != "" then
      Some("Error in " + outputs[0].0 + ": " + outputs[0].1.error)
    else
      var rest := FirstError(outputs[1..]);
      if rest.Some? then
        var i :| 0 <= i < |outputs[1..]| && outputs[1..][i].1.error != "" &&
          (forall j :: 0 <= j < i ==> outputs[1..][j].1.error == "") &&
          rest.value == "Error in " + outputs[1..][i].0 + ": " + outputs[1..][i].1.error;
        assert outputs[i + 1] == outputs[1..][i];
        assert forall j :: 1 <= j < i + 1 ==> outputs[j] == outputs[1..][j - 1];
        rest
      else
        assert forall i :: 1 <= i < |outputs| ==> outputs[i] == outputs[1..][i - 1];
        rest
  }

  /** Once an erroring output is found, the outputs after it are not looked
      at: the answer for `a + b` is the answer for `a` whenever `a` has one. */
  lemma {:induction false} FirstErrorAppend(a: Record<StepOutput>, b: Record<StepOutput>)
    ensures FirstError(a + b) == if FirstError(a).Some? then FirstError(a) else FirstError(b)
    decreases |a|
  {
    if |a| > 0 {
      assert (a + b)[0] == a[0];
      assert (a + b)[1..] == a[1..] + b;
      FirstErrorAppend(a[1..], b);
    } else {
      assert a + b == b;
    }
  }

  /** `findFirstApiExecutionError(apiResponse)`: `outputs` is
      `apiResponse?.context?.outputs`; `Object.entries` of `undefined`
      throws a `TypeError`. */
  function FindFirstApiExecutionError(outputs: Option<Record<StepOutput>>): (r: Result<Option<string>>)
    ensures outputs.None? ==> r.Err? && r.fault.cls == TypeErrorClass
    ensures outputs.Some? ==> r == Ok(FirstError(outputs.value))
  {
    match outputs
    case None => Err(Raise(TypeErrorClass, "Cannot convert undefined or null to object"))
    case Some(o) => Ok(FirstError(o))
  }
}
