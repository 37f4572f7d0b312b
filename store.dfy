/** The API's persistent state as the modelled routes see it: one map per Prisma table
    (keyed by id), the workflow states, the workspace memberships, and the log of
    Socket.IO emits. Row ids are chosen by the database; the routes receive them as
    parameters. */
module Store {
  import opened Common
  import opened ErrorHandler

  datatype WorkflowState = WorkflowState(workflowId: string, name: string, category: string, order: int)

  datatype Workflow = Workflow(id: string, name: string)

  datatype Member = Member(userId: string, role: string)

  datatype ServerProject = ServerProject(
    id: string,
    name: string,
    key: string,
    description: Option<string>,
    projectType: string,
    visibility: string,
    workspaceId: string,
    workflowId: string,
    leadId: string,
    members: seq<Member>)

  /** Dates are kept as the strings the client sent; `new Date(...)` parsing is not modelled. */
  datatype ServerIssue = ServerIssue(
    id: string,
    key: string,
    title: string,
    description: Option<string>,
    issueType: string,
    priority: string,
    status: string,
    projectId: string,
    reporterId: string,
    assigneeId: Option<string>,
    sprintId: Option<string>,
    parentId: Option<string>,
    storyPoints: Option<int>,
    dueDate: Option<string>,
    labelIds: set<string>,
    watcherIds: seq<string>)

  datatype ServerComment = ServerComment(id: string, content: string, issueId: string, authorId: string)

  datatype ServerSprint = ServerSprint(
    id: string,
    name: string,
    goal: Option<string>,
    startDate: Option<string>,
    endDate: Option<string>,
    projectId: string,
    status: string)

  /** io.to(room).emit(name, …), recorded with the id of the row it carries. */
  datatype Emit = Emit(room: string, name: string, subjectId: string)

  /** A route's answer: a JSON reply with its status, an error reply, or an error thrown to
      the error handler. */
  datatype Reply<T> = Ok(status: int, value: T) | Fail(status: int, message: string) | Threw(error: AppError)

  /** The HTTP status the client finally sees. */
  function ReplyStatus<T>(r: Reply<T>, nodeEnv: Option<string>): int {
    match r
    case Ok(s, _) => s
    case Fail(s, _) => s
    case Threw(e) => HandleError(e, nodeEnv).status
  }

  /** What Prisma throws for update or delete of a missing row. */
  function RecordNotFound(): AppError {
    AppError(PrismaKnown("P2025"), "PrismaClientKnownRequestError", "Record to update not found.", None, false, "")
  }

  /** What Prisma throws when a required column is given null. */
  function NullForRequiredColumn(): AppError {
    AppError(PlainError, "PrismaClientValidationError", "Argument must not be null.", None, false, "")
  }

  lemma ThrownStatuses(nodeEnv: Option<string>)
    ensures HandleError(RecordNotFound(), nodeEnv) == ErrorResponse(404, "Record not found", Some("NOT_FOUND"), None)
    ensures HandleError(NullForRequiredColumn(), nodeEnv).status == 500
    ensures HandleError(NullForRequiredColumn(), nodeEnv).message == "Internal server error"
  {
  }

  /** All tables at once, to state that a request wrote nothing. */
  datatype Tables = Tables(
    projects: map<string, ServerProject>,
    workflows: map<string, Workflow>,
    workflowStates: seq<WorkflowState>,
    issues: map<string, ServerIssue>,
    comments: map<string, ServerComment>,
    sprints: map<string, ServerSprint>,
    workspaceMembers: set<(string, string)>,
    emits: seq<Emit>)

  class Db {
    var projects: map<string, ServerProject>
    var workflows: map<string, Workflow>
    var workflowStates: seq<WorkflowState>
    var issues: map<string, ServerIssue>
    var comments: map<string, ServerComment>
    var sprints: map<string, ServerSprint>
    /** (workspaceId, userId) pairs. */
    var workspaceMembers: set<(string, string)>
    var emits: seq<Emit>

    function Snapshot(): Tables
      reads this
    {
      Tables(projects, workflows, workflowStates, issues, comments, sprints, workspaceMembers, emits)
    }

    constructor(projects: map<string, ServerProject>, workflows: map<string, Workflow>,
                workflowStates: seq<WorkflowState>, issues: map<string, ServerIssue>,
                comments: map<string, ServerComment>, sprints: map<string, ServerSprint>,
                workspaceMembers: set<(string, string)>)
      ensures Snapshot() == Tables(projects, workflows, workflowStates, issues, comments, sprints, workspaceMembers, [])
    {
      this.projects := projects;
      this.workflows := workflows;
      this.workflowStates := workflowStates;
      this.issues := issues;
      this.comments := comments;
      this.sprints := sprints;
      this.workspaceMembers := workspaceMembers;
      emits := [];
    }
  }
}
