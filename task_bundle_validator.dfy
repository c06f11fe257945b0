/** `TIOFederatedTaskBundleValidator`: runs the structural checks of a
    .tiotask bundle in order and then, as the final step, the caller's custom
    validation block. The result is the `BOOL` together with the `NSError`
    written through the error pointer. */
module TaskBundleValidation {
  import opened Wrappers

  /** The JSON values a task.json can hold. */
  datatype Json =
    | JNull
    | JBool(b: bool)
    | JNumber(n: int)
    | JString(s: string)
    | JArray(elems: seq<Json>)
    | JObject(fields: map<string, Json>)

  /** An `NSError` as far as validation reports it. */
  datatype ValidationError = ValidationError(domain: string, code: int, reason: string)

  /** A `BOOL` result and what was written through the `NSError**` pointer. */
  datatype Verdict = Verdict(ok: bool, error: Option<ValidationError>)

  /** One built-in structural check on (path, JSON): the error it raises, if any. */
  type Check = (string, map<string, Json>) -> Option<ValidationError>

  /** `TIOFederatedTaskBundleValidationBlock`: YES or NO and the error the
      block set, if it set one. */
  type ValidationBlock = (string, map<string, Json>) -> Verdict

  /** A validator: the bundle path, the contents of its task.json, and the
      built-in checks in the order they run. */
  datatype TaskBundleValidator = TaskBundleValidator(
    path: string,
    json: map<string, Json>,
    checks: seq<Check>)

  /** `initWithModelBundleAtPath:`: the JSON is what the bundle's task.json
      holds, passed in because reading files is not modelled. */
  function InitWithModelBundleAtPath(path: string, json: map<string, Json>, checks: seq<Check>): (v: TaskBundleValidator)
    ensures v.path == path && v.json == json && v.checks == checks
  {
    TaskBundleValidator(path, json, checks)
  }

  /** Every built-in check passes on (path, json). */
  ghost predicate AllPass(checks: seq<Check>, path: string, json: map<string, Json>)
  {
    forall i :: 0 <= i < |checks| ==> checks[i](path, json).None?
  }

  /** The first built-in check that fails, with its index and error. */
  function FirstFailure(checks: seq<Check>, path: string, json: map<string, Json>): (r: Option<(nat, ValidationError)>)
    ensures r.None? <==> AllPass(checks, path, json)
    ensures r.Some? ==>
              && r.value.0 < |checks|
              && checks[r.value.0](path, json) == Some(r.value.1)
              && AllPass(checks[..r.value.0], path, json)
    decreases |checks|
  {
    if |checks| == 0 then None
    else match checks[0](path, json)
      case Some(e) => Some((0, e))
      case None =>
        var rest := FirstFailure(checks[1..], path, json);
        match rest
        case None => None
        case Some((i, e)) =>
          assert checks[1..][i] == checks[i + 1];
          assert forall k :: 0 <= k < i + 1 ==> checks[..i + 1][k] == checks[k] by {
            forall k | 0 <= k < i + 1 ensures checks[..i + 1][k] == checks[k] {
              if k > 0 {
                assert checks[..i + 1][k] == checks[1..][..i][k - 1];
              }
            }
          }
          Some((i + 1, e))
  }

  /** `validateCustomValidator:validator:error:`: runs the block on the
      validator's path and the given JSON; on NO the error is the one the block
      passed back. */
  function ValidateCustomValidator(v: TaskBundleValidator, json: map<string, Json>, customValidator: ValidationBlock): (r: Verdict)
    ensures r.ok == customValidator(v.path, json).ok
    ensures !r.ok ==> r.error == customValidator(v.path, json).error
    ensures r.ok ==> r.error.None?
  {
    var b := customValidator(v.path, json);
    if b.ok then Verdict(true, None) else Verdict(false, b.error)
  }

  /** `validate:error:`: the built-in checks in order, the first failure
      deciding NO with its error, then the custom block, if given, on the
      bundle's path and JSON. */
  function Validate(v: TaskBundleValidator, customValidator: Option<ValidationBlock>): (r: Verdict)
    ensures r.ok ==> r.error.None?
    ensures !AllPass(v.checks, v.path, v.json) ==> !r.ok && r.error.Some?
  {
    match FirstFailure(v.checks, v.path, v.json)
    case Some((_, e)) => Verdict(false, Some(e))
    case None =>
      match customValidator
      case None => Verdict(true, None)
      case Some(block) => ValidateCustomValidator(v, v.json, block)
  }

  /** `validate:`: validation with no custom block. NO always comes with an
      error, and YES means every built-in check passed. */
  function ValidateWithoutCustom(v: TaskBundleValidator): (r: Verdict)
    ensures r.ok <==> AllPass(v.checks, v.path, v.json)
    ensures !r.ok ==> r.error.Some?
    ensures r == Validate(v, None)
  {
    Validate(v, None)
  }

  /** YES exactly when every built-in check passes and the custom block, if
      there is one, answers YES for the bundle's path and JSON. */
  lemma ValidateOkIff(v: TaskBundleValidator, customValidator: Option<ValidationBlock>)
    ensures Validate(v, customValidator).ok <==>
              AllPass(v.checks, v.path, v.json) &&
              (customValidator.Some? ==> customValidator.value(v.path, v.json).ok)
  {
  }

  /** The custom block is the final step: when a built-in check fails, the
      result is that check's failure whatever the block is, so the block's
      answer plays no part. */
  lemma CustomValidatorRunsLast(v: TaskBundleValidator, block: ValidationBlock)
    requires !AllPass(v.checks, v.path, v.json)
    ensures Validate(v, Some(block)) == Validate(v, None)
    ensures Validate(v, Some(block)).error == Some(FirstFailure(v.checks, v.path, v.json).value.1)
  {
  }

  /** Once the built-in checks pass, the result is the block's answer on the
      bundle's own path and JSON, and its error is passed back unchanged. */
  lemma CustomValidatorDecidesLast(v: TaskBundleValidator, block: ValidationBlock)
    requires AllPass(v.checks, v.path, v.json)
    ensures Validate(v, Some(block)) == ValidateCustomValidator(v, v.json, block)
    ensures Validate(v, Some(block)).ok == block(v.path, v.json).ok
    ensures !block(v.path, v.json).ok ==> Validate(v, Some(block)).error == block(v.path, v.json).error
  {
  }

  /** A check that fails is reported by the first one that fails: the checks
      before it all passed. */
  lemma BuiltInErrorIsFirstFailure(v: TaskBundleValidator, customValidator: Option<ValidationBlock>, i: nat)
    requires i < |v.checks| && v.checks[i](v.path, v.json).Some?
    requires AllPass(v.checks[..i], v.path, v.json)
    ensures Validate(v, customValidator) == Verdict(false, v.checks[i](v.path, v.json))
  {
  }
}
