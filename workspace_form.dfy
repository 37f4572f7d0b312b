/** workspaceSchema and the defaults of useWorkspaceForm (apps/web/src/hooks/useWorkspaceForm.ts). */
module WorkspaceForm {
  import opened Common
  import opened FormSchema

  datatype WorkspaceFormData = WorkspaceFormData(name: string, description: Option<string>)

  predicate ValidWorkspaceForm(d: WorkspaceFormData) {
    3 <= |d.name| <= 100 && (d.description.None? || |d.description.value| <= 500)
  }

  function WorkspaceSchemaIssues(d: WorkspaceFormData): (r: seq<FieldError>)
    ensures r == [] <==> ValidWorkspaceForm(d)
  {
    Length(d.name, 3, 100, "name", "Workspace name must be at least 3 characters", "Workspace name must not exceed 100 characters")
    + OptionalMax(d.description, 500, "description", "Description must not exceed 500 characters")
  }

  function ResolveWorkspaceForm(d: WorkspaceFormData): Resolution<WorkspaceFormData> {
    Resolve(d, WorkspaceSchemaIssues(d))
  }

  lemma WorkspaceFormResolution(d: WorkspaceFormData)
    ensures ResolveWorkspaceForm(d).Resolved? <==> ValidWorkspaceForm(d)
    ensures ResolveWorkspaceForm(d).Resolved? ==> ResolveWorkspaceForm(d).values == d
  {
  }

  const DefaultWorkspaceForm := WorkspaceFormData("", Some(""))

  lemma DefaultWorkspaceFormRejected()
    ensures WorkspaceSchemaIssues(DefaultWorkspaceForm) == [FieldError("name", "Workspace name must be at least 3 characters")]
  {
  }
}
