/** The projects page (apps/web/src/pages/Projects.tsx): name search, the workspace
    auto-selection, the create guard and the local removal after a delete. */
module ProjectsPage {
  import opened Common
  import opened WebTypes

  function NameMatches(query: string): Project -> bool {
    (p: Project) => Includes(ToLower(p.name), ToLower(query))
  }

  /** The projects whose lower-cased name contains the lower-cased query, in order. */
  function FilterProjects(projects: seq<Project>, query: string): seq<Project> {
    Filter(projects, NameMatches(query))
  }

  lemma FilterProjectsSpec(projects: seq<Project>, query: string)
    ensures IsSubseq(FilterProjects(projects, query), projects)
    ensures forall p :: p in FilterProjects(projects, query) <==> p in projects && Includes(ToLower(p.name), ToLower(query))
    ensures query == "" ==> FilterProjects(projects, query) == projects
  {
    FilterIsSubseq(projects, NameMatches(query));
    if query == "" {
      forall p | p in projects ensures NameMatches(query)(p) {
        IncludesEmpty(ToLower(p.name));
      }
      FilterAllKept(projects, NameMatches(query));
    }
  }

  function RemoveProject(projects: seq<Project>, id: string): seq<Project> {
    Filter(projects, (p: Project) => p.id != id)
  }

  /** Removal drops exactly the projects with that id and keeps the others in order. */
  lemma RemoveProjectSpec(projects: seq<Project>, id: string)
    ensures IsSubseq(RemoveProject(projects, id), projects)
    ensures forall p :: p in RemoveProject(projects, id) <==> p in projects && p.id != id
  {
    FilterIsSubseq(projects, (p: Project) => p.id != id);
  }

  class Page {
    var projects: seq<Project>
    var workspaces: seq<Workspace>
    var loading: bool
    var searchQuery: string
    var isDeleting: Option<string>
    var selectedWorkspace: Option<string>

    function FilteredProjects(): seq<Project>
      reads this
    {
      FilterProjects(projects, searchQuery)
    }

    constructor()
      ensures projects == [] && workspaces == [] && loading && searchQuery == ""
      ensures isDeleting == None && selectedWorkspace == None
    {
      projects := [];
      workspaces := [];
      loading := true;
      searchQuery := "";
      isDeleting := None;
      selectedWorkspace := None;
    }

    /** GET /projects; the list is kept when the request fails (`response` None). */
    method FetchProjects(response: Option<seq<Project>>)
      modifies this
      ensures projects == (if response.Some? then response.value else old(projects)) && !loading
      ensures workspaces == old(workspaces) && searchQuery == old(searchQuery)
      ensures isDeleting == old(isDeleting) && selectedWorkspace == old(selectedWorkspace)
    {
      loading := true;
      if response.Some? {
        projects := response.value;
      }
      loading := false;
    }

    /** GET /workspaces; the first workspace is selected only when none (or "") is selected yet
        and the list is not empty. */
    method FetchWorkspaces(response: Option<seq<Workspace>>)
      modifies this
      ensures workspaces == (if response.Some? then response.value else old(workspaces))
      ensures selectedWorkspace ==
        (if response.Some? && |response.value| > 0 && !Truthy(old(selectedWorkspace))
         then Some(response.value[0].id) else old(selectedWorkspace))
      ensures projects == old(projects) && loading == old(loading) && searchQuery == old(searchQuery) && isDeleting == old(isDeleting)
    {
      if response.Some? {
        workspaces := response.value;
        if |response.value| > 0 && !Truthy(selectedWorkspace) {
          selectedWorkspace := Some(response.value[0].id);
        }
      }
    }

    method SetSearchQuery(query: string)
      modifies this
      ensures searchQuery == query
      ensures projects == old(projects) && workspaces == old(workspaces) && loading == old(loading)
      ensures isDeleting == old(isDeleting) && selectedWorkspace == old(selectedWorkspace)
    {
      searchQuery := query;
    }

    /** handleCreateProject: returns the workspace id the POST carries, None when no workspace
        is selected and nothing is sent. After a successful POST the list is refetched
        (`refetched`, None when that GET fails), which leaves the page no longer loading. */
    method CreateProject(createSucceeded: bool, refetched: Option<seq<Project>>) returns (sentFor: Option<string>)
      modifies this
      ensures sentFor == (if Truthy(selectedWorkspace) then selectedWorkspace else None)
      ensures projects == (if sentFor.Some? && createSucceeded && refetched.Some? then refetched.value else old(projects))
      ensures loading == (if sentFor.Some? && createSucceeded then false else old(loading))
      ensures workspaces == old(workspaces) && searchQuery == old(searchQuery)
      ensures isDeleting == old(isDeleting) && selectedWorkspace == old(selectedWorkspace)
    {
      if !Truthy(selectedWorkspace) {
        return None;
      }
      sentFor := selectedWorkspace;
      if createSucceeded {
        FetchProjects(refetched);
      }
    }

    /** handleDeleteProject: nothing happens unless confirmed; the project leaves the local list
        only after the DELETE succeeds; isDeleting is back to None afterwards. */
    method DeleteProject(id: string, confirmed: bool, deleteSucceeded: bool) returns (sent: bool)
      modifies this
      ensures sent <==> confirmed
      ensures projects == (if confirmed && deleteSucceeded then RemoveProject(old(projects), id) else old(projects))
      ensures isDeleting == (if confirmed then None else old(isDeleting))
      ensures workspaces == old(workspaces) && searchQuery == old(searchQuery)
      ensures loading == old(loading) && selectedWorkspace == old(selectedWorkspace)
    {
      if !confirmed {
        return false;
      }
      sent := true;
      isDeleting := Some(id);
      if deleteSucceeded {
        projects := RemoveProject(projects, id);
      }
      isDeleting := None;
    }
  }
}
