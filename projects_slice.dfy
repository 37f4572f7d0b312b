/** The projects store slice (apps/web/src/store/slices/projectsSlice.ts). */
module ProjectsSlice {
  import opened Common
  import opened WebTypes

  class ProjectsState {
    var projects: seq<Project>
    var currentProject: Option<Project>
    var isLoading: bool
    var error: Option<string>

    constructor()
      ensures projects == [] && currentProject == None && !isLoading && error == None
    {
      projects := [];
      currentProject := None;
      isLoading := false;
      error := None;
    }

    method SetCurrentProject(project: Option<Project>)
      modifies this
      ensures currentProject == project
      ensures projects == old(projects) && isLoading == old(isLoading) && error == old(error)
    {
      currentProject := project;
    }

    method FetchPending()
      modifies this
      ensures isLoading && error == None
      ensures projects == old(projects) && currentProject == old(currentProject)
    {
      isLoading := true;
      error := None;
    }

    method FetchFulfilled(payload: seq<Project>)
      modifies this
      ensures !isLoading && projects == payload
      ensures currentProject == old(currentProject) && error == old(error)
    {
      isLoading := false;
      projects := payload;
    }

    method FetchRejected(message: Option<string>)
      modifies this
      ensures !isLoading && error == Some(OrDefault(message, "Failed to fetch projects"))
      ensures projects == old(projects) && currentProject == old(currentProject)
    {
      isLoading := false;
      error := Some(OrDefault(message, "Failed to fetch projects"));
    }

    /** createProject.fulfilled appends exactly the created project. */
    method CreateFulfilled(project: Project)
      modifies this
      ensures projects == old(projects) + [project] && |projects| == |old(projects)| + 1
      ensures currentProject == old(currentProject) && isLoading == old(isLoading) && error == old(error)
    {
      projects := projects + [project];
    }
  }
}
