/** The issues router (apps/api/src/routes/issues.ts): GET by id, create, PUT, and comment
    creation, over the abstract store. The authenticated requester's id and the ids the
    database would generate are parameters. */
module IssuesRoute {
  import opened Common
  import opened ErrorHandler
  import opened Store

  /** A body field of a PUT: absent (left unchanged by Prisma), JSON null, or a value. */
  datatype Field<T> = Absent | Null | Present(value: T)

  /** The POST body, after the title sanitizer. An absent optional field is None; priority
      keeps JSON null apart from an absent value, because only an absent one is defaulted. */
  datatype CreateIssueBody = CreateIssueBody(
    title: string,
    description: Option<string>,
    issueType: string,
    priority: Field<string>,
    projectId: string,
    assigneeId: Option<string>,
    sprintId: Option<string>,
    parentId: Option<string>,
    storyPoints: Option<int>,
    dueDate: Option<string>,
    labelIds: Option<seq<string>>)

  /** The PUT body. dueDate and labelIds are only read when truthy; an empty array is truthy. */
  datatype UpdateIssueBody = UpdateIssueBody(
    title: Field<string>,
    description: Field<string>,
    status: Field<string>,
    priority: Field<string>,
    assigneeId: Field<string>,
    sprintId: Field<string>,
    storyPoints: Field<int>,
    dueDate: Option<string>,
    labelIds: Option<seq<string>>)

  function GetIssue(db: Db, id: string): (r: Reply<ServerIssue>)
    reads db
    ensures id in db.issues <==> r.Ok?
    ensures r.Ok? ==> r == Ok(200, db.issues[id])
    ensures r.Fail? ==> r == Fail(404, "Issue not found")
  {
    if id in db.issues then Ok(200, db.issues[id]) else Fail(404, "Issue not found")
  }

  /** project._count.issues: how many stored issues belong to the project. */
  function ProjectIssueCount(issues: map<string, ServerIssue>, projectId: string): nat {
    |set id | id in issues && issues[id].projectId == projectId|
  }

  function IssueKey(projectKey: string, count: nat): string {
    projectKey + "-" + NatToString(count + 1)
  }

  /** Two issue numbers give the same key only when they are equal. */
  lemma IssueKeyInjective(projectKey: string, a: nat, b: nat)
    requires IssueKey(projectKey, a) == IssueKey(projectKey, b)
    ensures a == b
  {
    var n := |projectKey| + 1;
    assert IssueKey(projectKey, a)[n..] == NatToString(a + 1);
    assert IssueKey(projectKey, b)[n..] == NatToString(b + 1);
    DigitsValueOfNatToString(a + 1);
    DigitsValueOfNatToString(b + 1);
  }

  /** A key follows its project's key and a dash, and reads back as count + 1. */
  lemma IssueKeyShape(projectKey: string, count: nat)
    ensures var k := IssueKey(projectKey, count);
      && StartsWith(k, projectKey + "-")
      && ParseInt(k[|projectKey| + 1..]) == Some(count + 1)
  {
    var k := IssueKey(projectKey, count);
    assert k[|projectKey| + 1..] == NatToString(count + 1) + [];
    ParseIntOfRendering(count + 1, []);
  }

  /** The numbering counts the issues currently stored, so after a deletion the next key
      repeats the key of an issue that still exists. */
  lemma KeyRecursAfterDeletion()
    ensures var survivor := ServerIssue("i2", "AL-2", "second", None, "task", "medium", "To Do", "p", "u",
                                        None, None, None, None, None, {}, ["u"]);
      var issues := map["i2" := survivor];
      IssueKey("AL", ProjectIssueCount(issues, "p")) == survivor.key
  {
    var survivor := ServerIssue("i2", "AL-2", "second", None, "task", "medium", "To Do", "p", "u",
                                None, None, None, None, None, {}, ["u"]);
    var issues := map["i2" := survivor];
    assert (set id | id in issues && issues[id].projectId == "p") == {"i2"};
    assert NatToString(2) == "2";
  }

  predicate IsTodoState(s: WorkflowState, workflowId: string) {
    s.workflowId == workflowId && s.category == "todo"
  }

  /** The findFirst for the default status: the 'todo' state of the workflow with the least
      order, the earliest stored one among equals. */
  function FirstTodoState(states: seq<WorkflowState>, workflowId: string): (r: Option<WorkflowState>)
    ensures r.None? <==> forall k :: 0 <= k < |states| ==> !IsTodoState(states[k], workflowId)
    ensures r.Some? ==> r.value in states && IsTodoState(r.value, workflowId)
    ensures r.Some? ==> forall k :: 0 <= k < |states| && IsTodoState(states[k], workflowId) ==> r.value.order <= states[k].order
  {
    if states == [] then None
    else
      var rest := FirstTodoState(states[1..], workflowId);
      if !IsTodoState(states[0], workflowId) then
        assert forall k :: 1 <= k < |states| ==> states[k] == states[1..][k - 1];
        rest
      else if rest.None? || states[0].order <= rest.value.order then
        assert forall k :: 1 <= k < |states| ==> states[k] == states[1..][k - 1];
        Some(states[0])
      else
        assert forall k :: 1 <= k < |states| ==> states[k] == states[1..][k - 1];
        rest
  }

  /** `workflowState?.name || 'To Do'`. */
  function DefaultStatus(states: seq<WorkflowState>, workflowId: string): (r: string)
    ensures FirstTodoState(states, workflowId).None? ==> r == "To Do"
    ensures FirstTodoState(states, workflowId).Some? ==>
      r == (if FirstTodoState(states, workflowId).value.name == "" then "To Do" else FirstTodoState(states, workflowId).value.name)
  {
    match FirstTodoState(states, workflowId)
    case None => "To Do"
    case Some(s) => if s.name == "" then "To Do" else s.name
  }

  function LabelSet(labelIds: Option<seq<string>>): set<string> {
    match labelIds
    case None => {}
    case Some(ids) => set k | 0 <= k < |ids| :: ids[k]
  }

  /** The row prisma.issue.create writes for a request, or None when Prisma refuses the data
      because priority, a required column, is null. */
  function NewIssue(body: CreateIssueBody, project: ServerProject, states: seq<WorkflowState>,
                    count: nat, requesterId: string, newId: string): Option<ServerIssue>
  {
    match OrDefaultValue(body.priority, "medium")
    case None => None
    case Some(priority) =>
      Some(ServerIssue(
        newId,
        IssueKey(project.key, count),
        Trim(body.title),
        body.description,
        body.issueType,
        priority,
        DefaultStatus(states, project.workflowId),
        body.projectId,
        requesterId,
        body.assigneeId,
        body.sprintId,
        body.parentId,
        body.storyPoints,
        if Truthy(body.dueDate) then body.dueDate else None,
        LabelSet(body.labelIds),
        [requesterId]))
  }

  /** A destructuring default: it replaces only an absent value; a null stays null (None). */
  function OrDefaultValue(f: Field<string>, fallback: string): (r: Option<string>)
    ensures f.Absent? ==> r == Some(fallback)
    ensures f.Present? ==> r == Some(f.value)
    ensures f.Null? ==> r.None?
  {
    match f
    case Absent => Some(fallback)
    case Null => None
    case Present(v) => Some(v)
  }

  /** The defaults of a created issue: its key, status, priority, reporter and watcher; a null
      priority, and only that, leaves no row to write. */
  lemma NewIssueDefaults(body: CreateIssueBody, project: ServerProject, states: seq<WorkflowState>,
                         count: nat, requesterId: string, newId: string)
    ensures NewIssue(body, project, states, count, requesterId, newId).None? <==> body.priority.Null?
    ensures NewIssue(body, project, states, count, requesterId, newId).Some? ==>
      var i := NewIssue(body, project, states, count, requesterId, newId).value;
      && i.id == newId
      && i.key == project.key + "-" + NatToString(count + 1)
      && i.title == Trim(body.title)
      && (body.priority.Absent? ==> i.priority == "medium")
      && (body.priority.Present? ==> i.priority == body.priority.value)
      && (FirstTodoState(states, project.workflowId).None? ==> i.status == "To Do")
      && (forall s :: s in states && IsTodoState(s, project.workflowId) && s.name != "" &&
            (forall k :: 0 <= k < |states| && IsTodoState(states[k], project.workflowId) && states[k] != s ==> s.order < states[k].order)
            ==> i.status == s.name)
      && i.reporterId == requesterId
      && i.watcherIds == [requesterId]
      && i.projectId == body.projectId
      && (!Truthy(body.dueDate) ==> i.dueDate.None?)
      && (forall id :: id in i.labelIds <==> body.labelIds.Some? && id in body.labelIds.value)
  {
    var r := NewIssue(body, project, states, count, requesterId, newId);
    if r.Some? {
      var i := r.value;
      forall s | s in states && IsTodoState(s, project.workflowId) && s.name != "" &&
                 (forall k :: 0 <= k < |states| && IsTodoState(states[k], project.workflowId) && states[k] != s ==> s.order < states[k].order)
        ensures i.status == s.name
      {
        var f := FirstTodoState(states, project.workflowId);
        assert f.Some?;
        var j :| 0 <= j < |states| && states[j] == f.value;
        assert f.value == s;
      }
    }
  }

  /** POST /issues: 404 and no write when the project does not exist; a null priority is then
      refused by Prisma (500 once handled) with no write; otherwise the issue is stored under
      its new id, 'issue_created' goes to the project's room, and 201 is sent. */
  method CreateIssue(db: Db, body: CreateIssueBody, requesterId: string, newId: string) returns (reply: Reply<ServerIssue>)
    requires newId !in db.issues
    modifies db
    ensures body.projectId !in old(db.projects) ==>
      reply == Fail(404, "Project not found") && db.Snapshot() == old(db.Snapshot())
    ensures body.projectId in old(db.projects) && body.priority.Null? ==>
      reply == Threw(NullForRequiredColumn()) && db.Snapshot() == old(db.Snapshot())
    ensures body.projectId in old(db.projects) && !body.priority.Null? ==>
      var issue := NewIssue(body, old(db.projects)[body.projectId], old(db.workflowStates),
                            ProjectIssueCount(old(db.issues), body.projectId), requesterId, newId);
      && issue.Some?
      && reply == Ok(201, issue.value)
      && db.Snapshot() == old(db.Snapshot()).(issues := old(db.issues)[newId := issue.value],
                                               emits := old(db.emits) + [Emit("project:" + body.projectId, "issue_created", newId)])
  {
    if body.projectId !in db.projects {
      return Fail(404, "Project not found");
    }
    var project := db.projects[body.projectId];
    var count := ProjectIssueCount(db.issues, body.projectId);
    var created := NewIssue(body, project, db.workflowStates, count, requesterId, newId);
    if created.None? {
      return Threw(NullForRequiredColumn());
    }
    var issue := created.value;
    db.issues := db.issues[newId := issue];
    db.emits := db.emits + [Emit("project:" + body.projectId, "issue_created", newId)];
    reply := Ok(201, issue);
  }

  /** A created issue is one more issue of its project, so the next key in that project differs. */
  lemma CreateBumpsCount(issues: map<string, ServerIssue>, issue: ServerIssue)
    requires issue.id !in issues
    ensures ProjectIssueCount(issues[issue.id := issue], issue.projectId) == ProjectIssueCount(issues, issue.projectId) + 1
    ensures forall p :: p != issue.projectId ==>
      ProjectIssueCount(issues[issue.id := issue], p) == ProjectIssueCount(issues, p)
  {
    var m := issues[issue.id := issue];
    var before := set id | id in issues && issues[id].projectId == issue.projectId;
    var after := set id | id in m && m[id].projectId == issue.projectId;
    assert after == before + {issue.id};
    forall p | p != issue.projectId
      ensures ProjectIssueCount(m, p) == ProjectIssueCount(issues, p)
    {
      var b := set id | id in issues && issues[id].projectId == p;
      var a := set id | id in m && m[id].projectId == p;
      assert a == b;
    }
  }

  /** Prisma's reading of one nullable column: absent keeps, null clears, a value is stored. */
  function PatchNullable<T>(old_: Option<T>, f: Field<T>): Option<T> {
    match f
    case Absent => old_
    case Null => None
    case Present(v) => Some(v)
  }

  /** One required column: absent keeps, a value is stored (null is refused before this). */
  function PatchRequired<T>(old_: T, f: Field<T>): T {
    if f.Present? then f.value else old_
  }

  /** A null for title, status or priority makes Prisma refuse the whole update. */
  predicate NullForRequired(body: UpdateIssueBody) {
    body.title.Null? || body.status.Null? || body.priority.Null?
  }

  /** The row prisma.issue.update writes. */
  function PatchIssue(issue: ServerIssue, body: UpdateIssueBody): ServerIssue {
    issue.(
      title := PatchRequired(issue.title, body.title),
      description := PatchNullable(issue.description, body.description),
      status := PatchRequired(issue.status, body.status),
      priority := PatchRequired(issue.priority, body.priority),
      assigneeId := PatchNullable(issue.assigneeId, body.assigneeId),
      sprintId := PatchNullable(issue.sprintId, body.sprintId),
      storyPoints := PatchNullable(issue.storyPoints, body.storyPoints),
      dueDate := if Truthy(body.dueDate) then body.dueDate else issue.dueDate,
      labelIds := if body.labelIds.Some? then LabelSet(body.labelIds) else issue.labelIds)
  }

  /** Merge-patch: absent fields keep their value; the identity, type, project, key, reporter,
      parent and watchers never change; a falsy dueDate keeps the date; present labelIds
      replace the label set wholesale, an empty list clearing it. */
  lemma PatchChangesOnlySuppliedFields(issue: ServerIssue, body: UpdateIssueBody)
    ensures var p := PatchIssue(issue, body);
      && p.id == issue.id && p.key == issue.key && p.issueType == issue.issueType
      && p.projectId == issue.projectId && p.reporterId == issue.reporterId
      && p.parentId == issue.parentId && p.watcherIds == issue.watcherIds
      && (body.title.Absent? ==> p.title == issue.title)
      && (body.title.Present? ==> p.title == body.title.value)
      && (body.description.Absent? ==> p.description == issue.description)
      && (body.description.Null? ==> p.description.None?)
      && (body.status.Absent? ==> p.status == issue.status)
      && (body.status.Present? ==> p.status == body.status.value)
      && (body.description.Present? ==> p.description == Some(body.description.value))
      && (body.priority.Absent? ==> p.priority == issue.priority)
      && (body.priority.Present? ==> p.priority == body.priority.value)
      && (body.assigneeId.Absent? ==> p.assigneeId == issue.assigneeId)
      && (body.assigneeId.Null? ==> p.assigneeId.None?)
      && (body.assigneeId.Present? ==> p.assigneeId == Some(body.assigneeId.value))
      && (body.sprintId.Absent? ==> p.sprintId == issue.sprintId)
      && (body.sprintId.Null? ==> p.sprintId.None?)
      && (body.sprintId.Present? ==> p.sprintId == Some(body.sprintId.value))
      && (body.storyPoints.Absent? ==> p.storyPoints == issue.storyPoints)
      && (body.storyPoints.Null? ==> p.storyPoints.None?)
      && (body.storyPoints.Present? ==> p.storyPoints == Some(body.storyPoints.value))
      && (!Truthy(body.dueDate) ==> p.dueDate == issue.dueDate)
      && (Truthy(body.dueDate) ==> p.dueDate == body.dueDate)
      && (body.labelIds.None? ==> p.labelIds == issue.labelIds)
      && (body.labelIds.Some? ==> forall l :: l in p.labelIds <==> l in body.labelIds.value)
      && (body.labelIds == Some([]) ==> p.labelIds == {})
  {
  }

  /** An all-absent PUT writes the row back unchanged. */
  lemma EmptyPatchIsIdentity(issue: ServerIssue)
    ensures PatchIssue(issue, UpdateIssueBody(Absent, Absent, Absent, Absent, Absent, Absent, Absent, None, None)) == issue
  {
  }

  /** PUT /issues/:id: a null for a required column is refused by the client's validation
      before any query (500 once handled), then a missing id throws (404 once handled); both
      write nothing; otherwise the patched row is stored, 'issue_updated' goes
      to its project's room and the row is sent back. */
  method UpdateIssue(db: Db, id: string, body: UpdateIssueBody) returns (reply: Reply<ServerIssue>)
    modifies db
    ensures NullForRequired(body) ==>
      reply == Threw(NullForRequiredColumn()) && db.Snapshot() == old(db.Snapshot())
    ensures !NullForRequired(body) && id !in old(db.issues) ==>
      reply == Threw(RecordNotFound()) && db.Snapshot() == old(db.Snapshot())
    ensures id in old(db.issues) && !NullForRequired(body) ==>
      var issue := PatchIssue(old(db.issues)[id], body);
      && reply == Ok(200, issue)
      && db.Snapshot() == old(db.Snapshot()).(issues := old(db.issues)[id := issue],
                                               emits := old(db.emits) + [Emit("project:" + issue.projectId, "issue_updated", id)])
  {
    if NullForRequired(body) {
      return Threw(NullForRequiredColumn());
    }
    if id !in db.issues {
      return Threw(RecordNotFound());
    }
    var issue := PatchIssue(db.issues[id], body);
    db.issues := db.issues[id := issue];
    db.emits := db.emits + [Emit("project:" + issue.projectId, "issue_updated", id)];
    reply := Ok(200, issue);
  }

  /** The row prisma.comment.create writes: the content after the trim sanitizer. */
  function NewComment(newId: string, content: string, issueId: string, requesterId: string): (c: ServerComment)
    ensures c.id == newId && c.issueId == issueId && c.authorId == requesterId
    ensures c.content == Trim(content)
  {
    ServerComment(newId, Trim(content), issueId, requesterId)
  }

  /** POST /issues/:id/comments: 404 and no write for a missing issue; otherwise the trimmed
      content is stored with the requester as author, 'comment_added' goes to the issue's
      project room, and 201 is sent. */
  method AddComment(db: Db, issueId: string, content: string, requesterId: string, newId: string)
    returns (reply: Reply<ServerComment>)
    requires newId !in db.comments
    modifies db
    ensures issueId !in old(db.issues) ==>
      reply == Fail(404, "Issue not found") && db.Snapshot() == old(db.Snapshot())
    ensures issueId in old(db.issues) ==>
      var comment := NewComment(newId, content, issueId, requesterId);
      && reply == Ok(201, comment)
      && db.Snapshot() == old(db.Snapshot()).(comments := old(db.comments)[newId := comment],
                                               emits := old(db.emits) + [Emit("project:" + old(db.issues)[issueId].projectId, "comment_added", newId)])
  {
    if issueId !in db.issues {
      return Fail(404, "Issue not found");
    }
    var room := "project:" + db.issues[issueId].projectId;
    var comment := NewComment(newId, content, issueId, requesterId);
    db.comments := db.comments[newId := comment];
    db.emits := db.emits + [Emit(room, "comment_added", newId)];
    reply := Ok(201, comment);
  }
}
