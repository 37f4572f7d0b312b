/** The client's entity records (apps/web/src/types/index.ts), restricted to the fields the
    modelled pages, components and slices read or write. Enumerated string fields stay
    strings: the server can send values outside the TypeScript unions (a workflow state
    name such as "To Do" as an issue status), and the client code compares strings. */
module WebTypes {
  import opened Common

  datatype User = User(id: string, name: string, email: string, role: string)

  datatype Issue = Issue(
    id: string,
    title: string,
    description: Option<string>,
    issueType: string,
    priority: string,
    status: string,
    assigneeId: Option<string>,
    assignee: Option<User>,
    projectId: string)

  datatype Project = Project(id: string, name: string, key: string, workspaceId: string)

  datatype Workspace = Workspace(id: string, name: string)

  datatype Sprint = Sprint(id: string, name: string, status: string, totalPoints: int, completedPoints: int)

  datatype Comment = Comment(id: string, content: string, authorId: string, issueId: string)

  /** createdAt is the creation instant in milliseconds; date-string parsing is not modelled. */
  datatype Notification = Notification(
    id: string,
    userId: string,
    notificationType: string,
    title: string,
    message: string,
    read: bool,
    createdAt: int)

  /** timeSpent is in minutes. */
  datatype TimeLog = TimeLog(id: string, issueId: string, userId: string, timeSpent: int)

  function IssueIds(issues: seq<Issue>): (r: seq<string>)
    ensures |r| == |issues| && forall k :: 0 <= k < |issues| ==> r[k] == issues[k].id
  {
    MapSeq(issues, (i: Issue) => i.id)
  }

  /** No two issues share an id (the server's primary key guarantees it). */
  predicate UniqueIds(issues: seq<Issue>) {
    forall j, k :: 0 <= j < |issues| && 0 <= k < |issues| && issues[j].id == issues[k].id ==> j == k
  }
}
