/** The `length` rule of the `validator` crate as the DTOs use it. A value's length is
    its number of Unicode scalar values, which is the length of a Dafny `string`. */
module Validator {
  import opened Wrappers

  /** One failed `length` rule: the offending value and the bounds that were asked for. */
  datatype LengthIssue = LengthIssue(value: string, min: Option<nat>, max: Option<nat>)

  /** `ValidationErrors::field_errors()`: the failing fields by name. */
  type ValidationErrors = map<string, LengthIssue>

  predicate WithinLength(value: string, min: Option<nat>, max: Option<nat>) {
    (min.Some? ==> min.value <= |value|) && (max.Some? ==> |value| <= max.value)
  }

  /** The issues of one field carrying `#[validate(length(..))]`. */
  function LengthRule(field: string, value: string, min: Option<nat>, max: Option<nat>): (issues: ValidationErrors)
    ensures issues == map[] <==> WithinLength(value, min, max)
    ensures issues != map[] ==> issues.Keys == {field} && issues[field] == LengthIssue(value, min, max)
  {
    if WithinLength(value, min, max) then map[]
    else
      var one := map[field := LengthIssue(value, min, max)];
      assert field in one;
      one
  }

  /** `validate()` succeeds exactly when no field has an issue. */
  function Outcome(issues: ValidationErrors): (r: Result<(), ValidationErrors>)
    ensures r.Ok? <==> issues == map[]
    ensures r.Err? ==> r.error == issues
  {
    if issues == map[] then Ok(()) else Err(issues)
  }
}
