/** issueSchema and the defaults of useIssueForm (apps/web/src/hooks/useIssueForm.ts). */
module IssueForm {
  import opened Common
  import opened FormSchema

  /** The form values; an untouched optional or enum field is None. */
  datatype IssueFormData = IssueFormData(
    title: string,
    description: Option<string>,
    issueType: Option<string>,
    priority: Option<string>,
    assigneeId: Option<string>,
    projectId: Option<string>)

  const IssueTypes := ["epic", "story", "task", "bug", "subtask"]
  const Priorities := ["critical", "high", "medium", "low"]

  /** What the schema accepts, field by field. */
  predicate ValidIssueForm(d: IssueFormData) {
    && 3 <= |d.title| <= 200
    && (d.description.None? || |d.description.value| <= 5000)
    && d.issueType.Some? && d.issueType.value in IssueTypes
    && d.priority.Some? && d.priority.value in Priorities
  }

  /** The issues zod reports, in field order. assigneeId and projectId are unconstrained. */
  function IssueSchemaIssues(d: IssueFormData): (r: seq<FieldError>)
    ensures r == [] <==> ValidIssueForm(d)
    ensures forall e :: e in r ==> e.path in ["title", "description", "type", "priority"]
  {
    Length(d.title, 3, 200, "title", "Title must be at least 3 characters", "Title must not exceed 200 characters")
    + OptionalMax(d.description, 5000, "description", "Description must not exceed 5000 characters")
    + RequiredEnum(d.issueType, IssueTypes, "type", "Type is required")
    + RequiredEnum(d.priority, Priorities, "priority", "Priority is required")
  }

  function ResolveIssueForm(d: IssueFormData): Resolution<IssueFormData> {
    Resolve(d, IssueSchemaIssues(d))
  }

  /** Valid input comes back unchanged with no errors; anything else rejects. The optional
      ids never affect the outcome. */
  lemma IssueFormResolution(d: IssueFormData, assigneeId: Option<string>, projectId: Option<string>)
    ensures ResolveIssueForm(d).Resolved? <==> ValidIssueForm(d)
    ensures ResolveIssueForm(d).Resolved? ==> ResolveIssueForm(d).values == d
    ensures ResolveIssueForm(d.(assigneeId := assigneeId, projectId := projectId)).Resolved? == ResolveIssueForm(d).Resolved?
  {
  }

  /** An empty description is accepted like an absent one; one over 5000 characters is not. */
  lemma DescriptionBounds(d: IssueFormData)
    ensures d.description == Some("") ==> IssueSchemaIssues(d) == IssueSchemaIssues(d.(description := None))
    ensures d.description.Some? && |d.description.value| > 5000 ==>
      FieldError("description", "Description must not exceed 5000 characters") in IssueSchemaIssues(d)
  {
  }

  const DefaultIssueForm := IssueFormData("", Some(""), Some("task"), Some("medium"), None, None)

  /** The untouched form fails on its title alone. */
  lemma DefaultIssueFormRejected()
    ensures IssueSchemaIssues(DefaultIssueForm) == [FieldError("title", "Title must be at least 3 characters")]
    ensures ResolveIssueForm(DefaultIssueForm).Rejected?
  {
  }
}
