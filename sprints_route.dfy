/** The sprints router (apps/api/src/routes/sprints.ts): list, GET by id, create, the
    conditional-spread PUT, and DELETE, over the abstract store. */
module SprintsRoute {
  import opened Common
  import opened ErrorHandler
  import opened Store
  import opened IssuesRoute

  /** GET /sprints?projectId=…: every sprint when the query value is falsy, else the sprints
      of that project. The createdAt ordering is not modelled, so the answer is a set. */
  function ListSprints(sprints: map<string, ServerSprint>, projectId: Option<string>): (r: set<ServerSprint>)
    ensures forall s :: s in r <==> s in sprints.Values && (Truthy(projectId) ==> s.projectId == projectId.value)
    ensures !Truthy(projectId) ==> r == sprints.Values
  {
    if Truthy(projectId) then set s | s in sprints.Values && s.projectId == projectId.value
    else sprints.Values
  }

  function GetSprint(db: Db, id: string): (r: Reply<ServerSprint>)
    reads db
    ensures id in db.sprints <==> r.Ok?
    ensures r.Ok? ==> r == Ok(200, db.sprints[id])
    ensures r.Fail? ==> r == Fail(404, "Sprint not found")
  {
    if id in db.sprints then Ok(200, db.sprints[id]) else Fail(404, "Sprint not found")
  }

  /** The POST body after the name sanitizer; an absent goal or date is None. */
  datatype CreateSprintBody = CreateSprintBody(
    name: string,
    goal: Option<string>,
    startDate: Option<string>,
    endDate: Option<string>,
    projectId: string)

  function NewSprint(body: CreateSprintBody, newId: string): ServerSprint {
    ServerSprint(newId, Trim(body.name), body.goal,
                 if Truthy(body.startDate) then body.startDate else None,
                 if Truthy(body.endDate) then body.endDate else None,
                 body.projectId, "planning")
  }

  /** A created sprint is always planning with its name trimmed, and a falsy date is stored
      as null. */
  lemma NewSprintDefaults(body: CreateSprintBody, newId: string)
    ensures var s := NewSprint(body, newId);
      && s.id == newId && s.status == "planning" && s.projectId == body.projectId && s.goal == body.goal
      && s.name == Trim(body.name)
      && (Truthy(body.startDate) <==> s.startDate.Some?)
      && (Truthy(body.endDate) <==> s.endDate.Some?)
      && (s.startDate.Some? ==> s.startDate == body.startDate)
      && (s.endDate.Some? ==> s.endDate == body.endDate)
  {
  }

  /** POST /sprints: stores the new sprint and answers 201. */
  method CreateSprint(db: Db, body: CreateSprintBody, newId: string) returns (reply: Reply<ServerSprint>)
    requires newId !in db.sprints
    modifies db
    ensures reply == Ok(201, NewSprint(body, newId))
    ensures db.Snapshot() == old(db.Snapshot()).(sprints := old(db.sprints)[newId := NewSprint(body, newId)])
  {
    var sprint := NewSprint(body, newId);
    db.sprints := db.sprints[newId := sprint];
    reply := Ok(201, sprint);
  }

  /** The PUT body, field by field as JSON delivers it. */
  datatype SprintPatch = SprintPatch(
    name: Field<string>,
    goal: Field<string>,
    startDate: Field<string>,
    endDate: Field<string>,
    status: Field<string>)

  predicate FieldTruthy(f: Field<string>) {
    f.Present? && f.value != ""
  }

  /** `...(x !== undefined && { x: x || null })`: absent keeps, falsy clears, a value is stored. */
  function ClearOrSet(old_: Option<string>, f: Field<string>): Option<string> {
    if f.Absent? then old_ else if FieldTruthy(f) then Some(f.value) else None
  }

  /** The data object built by the conditional spreads, applied to the stored row. */
  function PatchSprint(s: ServerSprint, p: SprintPatch): ServerSprint {
    s.(
      name := if FieldTruthy(p.name) then p.name.value else s.name,
      goal := ClearOrSet(s.goal, p.goal),
      startDate := ClearOrSet(s.startDate, p.startDate),
      endDate := ClearOrSet(s.endDate, p.endDate),
      status := if FieldTruthy(p.status) then p.status.value else s.status)
  }

  /** name and status change only to a truthy value, and status to any such value whatever
      the current one; goal and the dates stay when absent, clear on a falsy value and take
      any other; id and project never change. */
  lemma PatchSprintSpec(s: ServerSprint, p: SprintPatch)
    ensures var r := PatchSprint(s, p);
      && r.id == s.id && r.projectId == s.projectId
      && (r.name != s.name ==> FieldTruthy(p.name) && r.name == p.name.value)
      && (FieldTruthy(p.name) ==> r.name == p.name.value)
      && (FieldTruthy(p.status) ==> r.status == p.status.value)
      && (!FieldTruthy(p.status) ==> r.status == s.status)
      && (p.goal.Absent? ==> r.goal == s.goal)
      && (p.goal == Present("") || p.goal.Null? ==> r.goal.None?)
      && (FieldTruthy(p.goal) ==> r.goal == Some(p.goal.value))
      && (p.startDate.Absent? ==> r.startDate == s.startDate)
      && (!p.startDate.Absent? && !FieldTruthy(p.startDate) ==> r.startDate.None?)
      && (FieldTruthy(p.startDate) ==> r.startDate == Some(p.startDate.value))
      && (p.endDate.Absent? ==> r.endDate == s.endDate)
      && (!p.endDate.Absent? && !FieldTruthy(p.endDate) ==> r.endDate.None?)
      && (FieldTruthy(p.endDate) ==> r.endDate == Some(p.endDate.value))
  {
  }

  /** Any status can be reached from any other by one PUT: the server does not enforce the
      planning, active, completed order that the sprints page offers. An empty status is falsy
      and changes nothing. */
  lemma AnyStatusTransition(s: ServerSprint, target: string)
    ensures target != "" ==> PatchSprint(s, SprintPatch(Absent, Absent, Absent, Absent, Present(target))).status == target
    ensures target != "" ==> PatchSprint(s, SprintPatch(Absent, Absent, Absent, Absent, Present(target))) == s.(status := target)
    ensures target == "" ==> PatchSprint(s, SprintPatch(Absent, Absent, Absent, Absent, Present(target))) == s
  {
  }

  /** PUT /sprints/:id: a missing id throws (404 once handled) and writes nothing; otherwise
      the patched row is stored and sent back. */
  method UpdateSprint(db: Db, id: string, p: SprintPatch) returns (reply: Reply<ServerSprint>)
    modifies db
    ensures id !in old(db.sprints) ==> reply == Threw(RecordNotFound()) && db.Snapshot() == old(db.Snapshot())
    ensures id in old(db.sprints) ==>
      && reply == Ok(200, PatchSprint(old(db.sprints)[id], p))
      && db.Snapshot() == old(db.Snapshot()).(sprints := old(db.sprints)[id := PatchSprint(old(db.sprints)[id], p)])
  {
    if id !in db.sprints {
      return Threw(RecordNotFound());
    }
    var sprint := PatchSprint(db.sprints[id], p);
    db.sprints := db.sprints[id := sprint];
    reply := Ok(200, sprint);
  }

  /** DELETE /sprints/:id: a missing id throws (404 once handled); otherwise the row is
      removed and 204 is sent with no body. */
  method DeleteSprint(db: Db, id: string) returns (reply: Reply<()>)
    modifies db
    ensures id !in old(db.sprints) ==> reply == Threw(RecordNotFound()) && db.Snapshot() == old(db.Snapshot())
    ensures id in old(db.sprints) ==>
      reply == Ok(204, ()) && db.Snapshot() == old(db.Snapshot()).(sprints := old(db.sprints) - {id})
    ensures id !in db.sprints
  {
    if id !in db.sprints {
      return Threw(RecordNotFound());
    }
    db.sprints := db.sprints - {id};
    reply := Ok(204, ());
  }
}
