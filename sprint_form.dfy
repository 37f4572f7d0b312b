/** sprintSchema and the defaults of useSprintForm (apps/web/src/hooks/useSprintForm.ts). */
module SprintForm {
  import opened Common
  import opened FormSchema

  /** The dates are strings as the date inputs give them. */
  datatype SprintFormData = SprintFormData(name: string, goal: Option<string>, startDate: Option<string>, endDate: Option<string>)

  predicate ValidSprintForm(d: SprintFormData) {
    3 <= |d.name| <= 100 && (d.goal.None? || |d.goal.value| <= 500)
  }

  function SprintSchemaIssues(d: SprintFormData): (r: seq<FieldError>)
    ensures r == [] <==> ValidSprintForm(d)
  {
    Length(d.name, 3, 100, "name", "Sprint name must be at least 3 characters", "Sprint name must not exceed 100 characters")
    + OptionalMax(d.goal, 500, "goal", "Goal must not exceed 500 characters")
  }

  function ResolveSprintForm(d: SprintFormData): Resolution<SprintFormData> {
    Resolve(d, SprintSchemaIssues(d))
  }

  /** The outcome depends on name and goal only: the dates, their order included, are not checked. */
  lemma SprintFormResolution(d: SprintFormData, startDate: Option<string>, endDate: Option<string>)
    ensures ResolveSprintForm(d).Resolved? <==> ValidSprintForm(d)
    ensures ResolveSprintForm(d).Resolved? ==> ResolveSprintForm(d).values == d
    ensures ResolveSprintForm(d.(startDate := startDate, endDate := endDate)).Resolved? == ResolveSprintForm(d).Resolved?
  {
  }

  /** An end date before the start date is accepted. */
  lemma EndBeforeStartAccepted()
    ensures ResolveSprintForm(SprintFormData("Sprint 1", None, Some("2024-02-01"), Some("2024-01-01"))).Resolved?
  {
  }

  const DefaultSprintForm := SprintFormData("", Some(""), Some(""), Some(""))

  lemma DefaultSprintFormRejected()
    ensures SprintSchemaIssues(DefaultSprintForm) == [FieldError("name", "Sprint name must be at least 3 characters")]
  {
  }
}
