/** projectSchema and the defaults of useProjectForm (apps/web/src/hooks/useProjectForm.ts). */
module ProjectForm {
  import opened Common
  import opened FormSchema

  datatype ProjectFormData = ProjectFormData(
    name: string,
    description: Option<string>,
    projectType: Option<string>,
    visibility: Option<string>)

  const ProjectTypes := ["kanban", "scrum", "bug_tracking", "custom"]
  const Visibilities := ["private", "public"]

  predicate ValidProjectForm(d: ProjectFormData) {
    && 2 <= |d.name| <= 100
    && (d.description.None? || |d.description.value| <= 500)
    && (d.projectType.None? || d.projectType.value in ProjectTypes)
    && (d.visibility.None? || d.visibility.value in Visibilities)
  }

  function ProjectSchemaIssues(d: ProjectFormData): (r: seq<FieldError>)
    ensures r == [] <==> ValidProjectForm(d)
  {
    Length(d.name, 2, 100, "name", "Project name must be at least 2 characters", "Project name must not exceed 100 characters")
    + OptionalMax(d.description, 500, "description", "Description must not exceed 500 characters")
    + OptionalEnum(d.projectType, ProjectTypes, "type")
    + OptionalEnum(d.visibility, Visibilities, "visibility")
  }

  function ResolveProjectForm(d: ProjectFormData): Resolution<ProjectFormData> {
    Resolve(d, ProjectSchemaIssues(d))
  }

  lemma ProjectFormResolution(d: ProjectFormData)
    ensures ResolveProjectForm(d).Resolved? <==> ValidProjectForm(d)
    ensures ResolveProjectForm(d).Resolved? ==> ResolveProjectForm(d).values == d
  {
  }

  const DefaultProjectForm := ProjectFormData("", Some(""), Some("kanban"), Some("private"))

  /** The defaults pass every check but the name's. */
  lemma DefaultProjectFormRejected()
    ensures ProjectSchemaIssues(DefaultProjectForm) == [FieldError("name", "Project name must be at least 2 characters")]
  {
  }
}
