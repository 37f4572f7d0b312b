/** What the form hooks share: a zod schema's issues and the resolver each hook installs,
    which awaits `schema.parseAsync(data)` and returns `{ values: result, errors: {} }`. A
    failed parse therefore rejects the resolver's promise instead of returning errors. */
module FormSchema {
  import opened Common

  /** One zod issue: the field path and its message. */
  datatype FieldError = FieldError(path: string, message: string)

  /** The resolver's outcome: the parsed values with an empty error map, or a rejection
      carrying the schema's issues. */
  datatype Resolution<T> = Resolved(values: T) | Rejected(issues: seq<FieldError>)

  /** One string check: no issue when it holds, its message when it fails. */
  function Check(ok: bool, path: string, message: string): (r: seq<FieldError>)
    ensures r == [] <==> ok
    ensures !ok ==> r == [FieldError(path, message)]
  {
    if ok then [] else [FieldError(path, message)]
  }

  function Resolve<T>(data: T, issues: seq<FieldError>): (r: Resolution<T>)
    ensures r.Resolved? <==> issues == []
    ensures r.Resolved? ==> r.values == data
    ensures r.Rejected? ==> r.issues == issues
  {
    if issues == [] then Resolved(data) else Rejected(issues)
  }

  /** zod's message for a value outside a z.enum (the listed options and the received value
      that zod appends are not modelled). */
  const InvalidEnumValue := "Invalid enum value"

  /** A required z.enum: the required_error when absent, the enum message when not an option. */
  function RequiredEnum(value: Option<string>, options: seq<string>, path: string, requiredMessage: string): (r: seq<FieldError>)
    ensures r == [] <==> value.Some? && value.value in options
  {
    match value
    case None => [FieldError(path, requiredMessage)]
    case Some(v) => Check(v in options, path, InvalidEnumValue)
  }

  /** An optional z.enum: absent is accepted. */
  function OptionalEnum(value: Option<string>, options: seq<string>, path: string): (r: seq<FieldError>)
    ensures r == [] <==> value.None? || value.value in options
  {
    match value
    case None => []
    case Some(v) => Check(v in options, path, InvalidEnumValue)
  }

  /** `z.string().min(lo, m1).max(hi, m2)`: both checks run, so the issues are those of the
      failing bounds, min first. */
  function Length(s: string, lo: nat, hi: nat, path: string, tooShort: string, tooLong: string): (r: seq<FieldError>)
    ensures r == [] <==> lo <= |s| <= hi
  {
    Check(lo <= |s|, path, tooShort) + Check(|s| <= hi, path, tooLong)
  }

  /** `z.string().max(hi, m).optional()`, with or without `.or(z.literal(''))`: '' already
      satisfies the first branch, so the union reports that branch's issue. */
  function OptionalMax(s: Option<string>, hi: nat, path: string, tooLong: string): (r: seq<FieldError>)
    ensures r == [] <==> s.None? || |s.value| <= hi
  {
    match s
    case None => []
    case Some(v) => Check(|v| <= hi, path, tooLong)
  }
}
