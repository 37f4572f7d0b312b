/** timeLogSchema and the defaults of useTimeLogForm (apps/web/src/hooks/useTimeLogForm.ts). */
module TimeLogForm {
  import opened Common
  import opened FormSchema

  datatype TimeLogFormData = TimeLogFormData(timeSpent: string, description: Option<string>, spentDate: string)

  /** parseInt(val, 10) is a number greater than 0 (NaN compares false). */
  predicate PositiveMinutes(s: string) {
    var n := ParseInt(s);
    n.Some? && n.value > 0
  }

  predicate ValidTimeLogForm(d: TimeLogFormData) {
    && |d.timeSpent| >= 1
    && PositiveMinutes(d.timeSpent)
    && (d.description.None? || |d.description.value| <= 500)
    && |d.spentDate| >= 1
  }

  /** The min(1) check and both refinements run on timeSpent, each adding its own issue. */
  function TimeLogSchemaIssues(d: TimeLogFormData): (r: seq<FieldError>)
    ensures r == [] <==> ValidTimeLogForm(d)
  {
    Check(|d.timeSpent| >= 1, "timeSpent", "Time spent is required")
    + Check(ParseInt(d.timeSpent).Some?, "timeSpent", "Must be a valid number")
    + Check(PositiveMinutes(d.timeSpent), "timeSpent", "Time must be at least 1 minute")
    + OptionalMax(d.description, 500, "description", "Description must not exceed 500 characters")
    + Check(|d.spentDate| >= 1, "spentDate", "Date is required")
  }

  function ResolveTimeLogForm(d: TimeLogFormData): Resolution<TimeLogFormData> {
    Resolve(d, TimeLogSchemaIssues(d))
  }

  lemma TimeLogFormResolution(d: TimeLogFormData)
    ensures ResolveTimeLogForm(d).Resolved? <==> ValidTimeLogForm(d)
    ensures ResolveTimeLogForm(d).Resolved? ==> ResolveTimeLogForm(d).values == d
  {
  }

  /** parseInt reads only the leading digits, so "12abc" passes. */
  lemma TimeSpentAccepted()
    ensures PositiveMinutes("12abc") && PositiveMinutes("90")
  {
    ParseIntOfRendering(12, "abc");
    assert NatToString(12) + "abc" == "12abc";
    ParseIntOfRendering(90, "");
    assert NatToString(90) + "" == "90";
  }

  /** Zero, a negative number, white space and letters are refused. */
  lemma TimeSpentRefused()
    ensures !PositiveMinutes("0") && !PositiveMinutes("-5") && !PositiveMinutes(" ") && !PositiveMinutes("abc")
  {
    ParseIntOfRendering(0, "");
    assert NatToString(0) + "" == "0";
    NegativeFiveParses();
    assert TrimStart(" ") == "";
    assert LeadingDigits("abc") == "";
  }

  lemma NegativeFiveParses()
    ensures ParseInt("-5") == Some(-5)
  {
    assert TrimStart("-5") == "-5";
    assert "-5"[1..] == "5";
    assert LeadingDigits("5") == "5";
  }

  /** The untouched form: an empty duration fails all three of its checks. */
  lemma DefaultTimeLogFormRejected(today: string)
    requires |today| >= 1
    ensures var d := TimeLogFormData("", Some(""), today);
      TimeLogSchemaIssues(d) == [FieldError("timeSpent", "Time spent is required"),
                                 FieldError("timeSpent", "Must be a valid number"),
                                 FieldError("timeSpent", "Time must be at least 1 minute")]
  {
    assert TrimStart("") == "";
    assert LeadingDigits("") == "";
  }
}
