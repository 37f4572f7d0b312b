/** The projects router (apps/api/src/routes/projects.ts): the visibility rules of the list
    and of GET by id, project creation with its default workflow, and the project issues
    query. */
module ProjectsRoute {
  import opened Common
  import opened Store
  import opened IssuesRoute

  predicate IsMember(p: ServerProject, userId: string) {
    exists k :: 0 <= k < |p.members| && p.members[k].userId == userId
  }

  /** The list's where clause: public, or private with the requester among the members. */
  predicate ListedFor(p: ServerProject, userId: string) {
    p.visibility == "public" || (p.visibility == "private" && IsMember(p, userId))
  }

  /** GET by id's where clause: public, or the requester among the members. */
  predicate ShownFor(p: ServerProject, userId: string) {
    p.visibility == "public" || IsMember(p, userId)
  }

  /** GET /projects. The createdAt ordering is not modelled, so the answer is a set. */
  function ListProjects(projects: map<string, ServerProject>, userId: string): (r: set<ServerProject>)
    ensures forall p :: p in r <==> p in projects.Values && ListedFor(p, userId)
  {
    set p | p in projects.Values && ListedFor(p, userId)
  }

  function GetProject(projects: map<string, ServerProject>, id: string, userId: string): (r: Reply<ServerProject>)
    ensures r.Ok? <==> id in projects && ShownFor(projects[id], userId)
    ensures r.Ok? ==> r == Ok(200, projects[id])
    ensures !r.Ok? ==> r == Fail(404, "Project not found")
  {
    if id in projects && ShownFor(projects[id], userId) then Ok(200, projects[id])
    else Fail(404, "Project not found")
  }

  /** For the two visibilities the client offers, GET by id finds exactly the listed
      projects; the two clauses part only on some other visibility value, where a member
      can open a project the list does not show. */
  lemma ListAndGetAgree(projects: map<string, ServerProject>, id: string, userId: string)
    requires id in projects
    ensures projects[id].visibility in {"public", "private"} ==>
      (GetProject(projects, id, userId).Ok? <==> projects[id] in ListProjects(projects, userId))
    ensures projects[id] !in ListProjects(projects, userId) && GetProject(projects, id, userId).Ok? ==>
      projects[id].visibility !in {"public", "private"} && IsMember(projects[id], userId)
  {
    assert projects[id] in projects.Values;
  }

  /** The body of POST /projects after the name and key sanitizers; an absent optional field is None. */
  datatype CreateProjectBody = CreateProjectBody(
    name: string,
    key: string,
    description: Option<string>,
    projectType: Option<string>,
    visibility: Option<string>,
    workspaceId: string)

  /** The four states of every new project's workflow. */
  function DefaultStates(workflowId: string): seq<WorkflowState> {
    [ WorkflowState(workflowId, "To Do", "todo", 0),
      WorkflowState(workflowId, "In Progress", "in_progress", 1),
      WorkflowState(workflowId, "Review", "in_progress", 2),
      WorkflowState(workflowId, "Done", "done", 3) ]
  }

  /** The default workflow is To Do (todo), In Progress and Review (both in_progress) and
      Done (done), ordered 0 to 3, with a single 'todo' state. */
  lemma DefaultStatesShape(workflowId: string)
    ensures var s := DefaultStates(workflowId);
      && |s| == 4
      && (forall k :: 0 <= k < 4 ==> s[k].workflowId == workflowId && s[k].order == k)
      && s[0].name == "To Do" && s[0].category == "todo"
      && s[1].name == "In Progress" && s[1].category == "in_progress"
      && s[2].name == "Review" && s[2].category == "in_progress"
      && s[3].name == "Done" && s[3].category == "done"
      && (forall k :: 0 <= k < 4 && s[k].category == "todo" ==> k == 0 && s[k].name == "To Do")
  {
  }

  function NewProject(body: CreateProjectBody, requesterId: string, newId: string, workflowId: string): ServerProject {
    ServerProject(
      newId,
      Trim(body.name),
      ToUpper(Trim(body.key)),
      body.description,
      OrDefault(body.projectType, "kanban"),
      OrDefault(body.visibility, "public"),
      body.workspaceId,
      workflowId,
      requesterId,
      [Member(requesterId, "lead")])
  }

  /** The defaults of a created project: a trimmed name, a trimmed and uppercased key,
      kanban and public unless given,
      and the creator as lead and sole member with role 'lead'. */
  lemma NewProjectDefaults(body: CreateProjectBody, requesterId: string, newId: string, workflowId: string)
    ensures var p := NewProject(body, requesterId, newId, workflowId);
      && p.id == newId && p.name == Trim(body.name) && p.key == ToUpper(Trim(body.key))
      && p.description == body.description && p.workspaceId == body.workspaceId
      && (!Truthy(body.projectType) ==> p.projectType == "kanban")
      && (Truthy(body.projectType) ==> p.projectType == body.projectType.value)
      && (!Truthy(body.visibility) ==> p.visibility == "public")
      && (Truthy(body.visibility) ==> p.visibility == body.visibility.value)
      && p.leadId == requesterId
      && (forall m :: m in p.members <==> m == Member(requesterId, "lead"))
      && |p.members| == 1
      && p.workflowId == workflowId
  {
  }

  /** The key is stored with no lower-case ASCII letter. */
  lemma StoredKeyIsUpperCase(body: CreateProjectBody, requesterId: string, newId: string, workflowId: string)
    ensures var k := NewProject(body, requesterId, newId, workflowId).key;
      forall j :: 0 <= j < |k| ==> !('a' <= k[j] <= 'z')
  {
  }

  /** POST /projects: 403 and no write unless the requester belongs to the workspace;
      otherwise the default workflow and the project are stored and 201 is sent. */
  method CreateProject(db: Db, body: CreateProjectBody, requesterId: string, newId: string, workflowId: string)
    returns (reply: Reply<ServerProject>)
    requires newId !in db.projects && workflowId !in db.workflows
    modifies db
    ensures (body.workspaceId, requesterId) !in old(db.workspaceMembers) ==>
      reply == Fail(403, "Access denied") && db.Snapshot() == old(db.Snapshot())
    ensures (body.workspaceId, requesterId) in old(db.workspaceMembers) ==>
      && reply == Ok(201, NewProject(body, requesterId, newId, workflowId))
      && db.Snapshot() == old(db.Snapshot()).(
           projects := old(db.projects)[newId := NewProject(body, requesterId, newId, workflowId)],
           workflows := old(db.workflows)[workflowId := Workflow(workflowId, "Default Workflow")],
           workflowStates := old(db.workflowStates) + DefaultStates(workflowId))
  {
    if (body.workspaceId, requesterId) !in db.workspaceMembers {
      return Fail(403, "Access denied");
    }
    db.workflows := db.workflows[workflowId := Workflow(workflowId, "Default Workflow")];
    db.workflowStates := db.workflowStates + DefaultStates(workflowId);
    var project := NewProject(body, requesterId, newId, workflowId);
    db.projects := db.projects[newId := project];
    reply := Ok(201, project);
  }

  /** The first issue created in a new project gets status "To Do" and key KEY-1, when no
      other stored state belongs to the new workflow (and the priority is not null, which
      leaves no row at all). */
  lemma FirstIssueOfNewProject(states: seq<WorkflowState>, project: ServerProject, body: CreateIssueBody,
                               requesterId: string, issueId: string)
    requires forall k :: 0 <= k < |states| ==> states[k].workflowId != project.workflowId
    ensures !body.priority.Null? ==>
      var r := NewIssue(body, project, states + DefaultStates(project.workflowId), 0, requesterId, issueId);
      r.Some? && r.value.status == "To Do" && r.value.key == project.key + "-1"
  {
    var all := states + DefaultStates(project.workflowId);
    assert all[|states|] == WorkflowState(project.workflowId, "To Do", "todo", 0);
    var f := FirstTodoState(all, project.workflowId);
    assert f.Some?;
    var j :| 0 <= j < |all| && all[j] == f.value;
    assert j >= |states|;
    assert all[j] == DefaultStates(project.workflowId)[j - |states|];
    assert f.value.name == "To Do";
    assert NatToString(1) == "1";
  }

  /** One equality of the issues query's where object. */
  datatype Constraint = Constraint(column: string, value: string)

  /** `...(value && { column: String(value) })`: one equality when the query value is truthy. */
  function Spread(column: string, value: Option<string>): (r: seq<Constraint>)
    ensures |r| == (if Truthy(value) then 1 else 0)
    ensures forall c :: c in r <==> Truthy(value) && c == Constraint(column, value.value)
  {
    if Truthy(value) then [Constraint(column, value.value)] else []
  }

  /** The where object of the project issues query. */
  function IssueWhere(projectId: string, status: Option<string>, assignee: Option<string>,
                      issueType: Option<string>, priority: Option<string>): seq<Constraint>
  {
    [Constraint("projectId", projectId)] + Spread("status", status) + Spread("assigneeId", assignee)
    + Spread("type", issueType) + Spread("priority", priority)
  }

  function CountTruthy(os: seq<Option<string>>): nat {
    if os == [] then 0 else (if Truthy(os[0]) then 1 else 0) + CountTruthy(os[1..])
  }

  predicate Satisfies(i: ServerIssue, c: Constraint) {
    match c.column
    case "projectId" => i.projectId == c.value
    case "status" => i.status == c.value
    case "assigneeId" => i.assigneeId == Some(c.value)
    case "type" => i.issueType == c.value
    case "priority" => i.priority == c.value
    case _ => false
  }

  /** The where object holds the project constraint first and one equality per truthy filter. */
  lemma IssueWhereCount(projectId: string, status: Option<string>, assignee: Option<string>,
                        issueType: Option<string>, priority: Option<string>)
    ensures var w := IssueWhere(projectId, status, assignee, issueType, priority);
      w[0] == Constraint("projectId", projectId) && |w| == 1 + CountTruthy([status, assignee, issueType, priority])
  {
    assert [status, assignee, issueType, priority][1..] == [assignee, issueType, priority];
    assert [assignee, issueType, priority][1..] == [issueType, priority];
    assert [issueType, priority][1..] == [priority];
    assert [priority][1..] == [];
    assert CountTruthy([priority]) == (if Truthy(priority) then 1 else 0);
    assert CountTruthy([issueType, priority]) == (if Truthy(issueType) then 1 else 0) + CountTruthy([priority]);
    assert CountTruthy([assignee, issueType, priority])
        == (if Truthy(assignee) then 1 else 0) + CountTruthy([issueType, priority]);
  }

  /** Each filter contributes its own equality when truthy and nothing otherwise. */
  lemma IssueWhereMembers(projectId: string, status: Option<string>, assignee: Option<string>,
                          issueType: Option<string>, priority: Option<string>)
    ensures var w := IssueWhere(projectId, status, assignee, issueType, priority);
      && (forall c :: c in w <==>
            || c == Constraint("projectId", projectId)
            || (Truthy(status) && c == Constraint("status", status.value))
            || (Truthy(assignee) && c == Constraint("assigneeId", assignee.value))
            || (Truthy(issueType) && c == Constraint("type", issueType.value))
            || (Truthy(priority) && c == Constraint("priority", priority.value)))
  {
  }

  /** GET /projects/:id/issues. The createdAt ordering is not modelled, so the answer is a set. */
  function ProjectIssues(issues: map<string, ServerIssue>, projectId: string, status: Option<string>,
                         assignee: Option<string>, issueType: Option<string>, priority: Option<string>): set<ServerIssue>
  {
    var w := IssueWhere(projectId, status, assignee, issueType, priority);
    set i | i in issues.Values && forall c :: c in w ==> Satisfies(i, c)
  }

  /** The query returns exactly the project's issues that agree with every truthy filter;
      with every filter falsy it returns all of the project's issues. */
  lemma ProjectIssuesSpec(issues: map<string, ServerIssue>, projectId: string, status: Option<string>,
                          assignee: Option<string>, issueType: Option<string>, priority: Option<string>)
    ensures forall i :: i in ProjectIssues(issues, projectId, status, assignee, issueType, priority) <==>
      && i in issues.Values
      && i.projectId == projectId
      && (Truthy(status) ==> i.status == status.value)
      && (Truthy(assignee) ==> i.assigneeId == Some(assignee.value))
      && (Truthy(issueType) ==> i.issueType == issueType.value)
      && (Truthy(priority) ==> i.priority == priority.value)
  {
    var w := IssueWhere(projectId, status, assignee, issueType, priority);
    IssueWhereMembers(projectId, status, assignee, issueType, priority);
    forall i | i in issues.Values
      ensures (forall c :: c in w ==> Satisfies(i, c)) <==>
        && i.projectId == projectId
        && (Truthy(status) ==> i.status == status.value)
        && (Truthy(assignee) ==> i.assigneeId == Some(assignee.value))
        && (Truthy(issueType) ==> i.issueType == issueType.value)
        && (Truthy(priority) ==> i.priority == priority.value)
    {
      assert Constraint("projectId", projectId) in w;
      assert Truthy(status) ==> Constraint("status", status.value) in w;
      assert Truthy(assignee) ==> Constraint("assigneeId", assignee.value) in w;
      assert Truthy(issueType) ==> Constraint("type", issueType.value) in w;
      assert Truthy(priority) ==> Constraint("priority", priority.value) in w;
    }
  }
}
