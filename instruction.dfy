/** The instruction framework: the result every instruction reports and the
    check that all required parameters are present (src/core/instruction.ts). */
module Instruction {
  import opened Common

  /** `{ success, message, details? }`. Detail fields whose value is `undefined`
      are left out of the map. */
  datatype InstructionResult = InstructionResult(
    success: bool,
    message: string,
    details: Option<map<string, string>>)

  function MissingParameterMessage(name: string): string {
    "Missing required parameter: " + name
  }

  /** The index in `required` of the first name that `params` does not define.
      Only an absent name is missing; any value that is present passes. */
  function FirstMissing<V>(required: seq<string>, params: map<string, V>): (r: Option<nat>)
    ensures r.None? <==> forall i :: 0 <= i < |required| ==> required[i] in params
    ensures r.Some? ==> r.value < |required| && required[r.value] !in params
    ensures r.Some? ==> forall j :: 0 <= j < r.value ==> required[j] in params
  {
    FirstIndex(required, name => name !in params)
  }

  /** What `validateParams` answers: `None` (null) or the message naming the first
      missing parameter. */
  function ValidationError<V>(required: seq<string>, params: map<string, V>): (r: Option<string>)
    ensures r.None? <==> forall i :: 0 <= i < |required| ==> required[i] in params
    ensures r.Some? ==> exists i :: (0 <= i < |required| && required[i] !in params
      && (forall j :: 0 <= j < i ==> required[j] in params)
      && r.value == MissingParameterMessage(required[i]))
  {
    match FirstMissing(required, params)
    case None => None
    case Some(i) => Some(MissingParameterMessage(required[i]))
  }

  /** `BaseInstruction.validateParams`: scans `requiredParams` in order and
      returns at the first parameter that is undefined. */
  method ValidateParams<V>(required: seq<string>, params: map<string, V>) returns (r: Option<string>)
    ensures r.None? <==> forall i :: 0 <= i < |required| ==> required[i] in params
    ensures r.Some? ==> exists i :: (0 <= i < |required| && required[i] !in params
      && (forall j :: 0 <= j < i ==> required[j] in params)
      && r.value == MissingParameterMessage(required[i]))
    ensures r == ValidationError(required, params)
  {
    for i := 0 to |required|
      invariant forall j :: 0 <= j < i ==> required[j] in params
    {
      if required[i] !in params {
        FirstMissingIsUnique(required, params, i);
        return Some(MissingParameterMessage(required[i]));
      }
    }
    return None;
  }

  /** A missing name with every earlier name present is the one `FirstMissing` finds. */
  lemma FirstMissingIsUnique<V>(required: seq<string>, params: map<string, V>, i: nat)
    requires i < |required| && required[i] !in params
    requires forall j :: 0 <= j < i ==> required[j] in params
    ensures FirstMissing(required, params) == Some(i)
  {
  }

  /** A parameter that is present passes whatever its value: an empty text too. */
  lemma PresentEmptyValuePasses(name: string)
    ensures ValidationError([name], map[name := ""]) == None
  {
  }
}
