/** The pure part of the kanban board page (apps/web/src/pages/Board.tsx): the five-part
    issue filter, the fixed four-column partition by status, the filtered columns, the
    deduplicated assignee list, and the list transformations the page's handlers apply
    (selection toggle, drag-end target resolution, status rewrite, merge by id). */
module BoardProjection {
  import opened Common
  import opened WebTypes

  // ---------------------------------------------------------------------------
  // Filter

  /** The five filter fields; "all" is the neutral value of the four selects. */
  datatype Filters = Filters(search: string, status: string, priority: string, assigneeId: string, issueType: string)

  const NeutralFilters: Filters := Filters("", "all", "all", "all", "all")

  /** Case-insensitive substring test on the title, or on the description when there is one. */
  predicate MatchesSearch(i: Issue, search: string) {
    search == ""
    || Includes(ToLower(i.title), ToLower(search))
    || (i.description.Some? && Includes(ToLower(i.description.value), ToLower(search)))
  }

  /** "all" keeps everything, "" keeps the issues with no (truthy) assigneeId, any other value
      keeps the issues assigned to exactly that id. */
  predicate MatchesAssignee(i: Issue, assigneeFilter: string) {
    if assigneeFilter == "all" then true
    else if assigneeFilter == "" then !Truthy(i.assigneeId)
    else i.assigneeId == Some(assigneeFilter)
  }

  predicate Keep(i: Issue, f: Filters) {
    && MatchesSearch(i, f.search)
    && (f.status == "all" || i.status == f.status)
    && (f.priority == "all" || i.priority == f.priority)
    && MatchesAssignee(i, f.assigneeId)
    && (f.issueType == "all" || i.issueType == f.issueType)
  }

  /** The issues that pass all five checks, in their original order. */
  function FilteredIssues(issues: seq<Issue>, f: Filters): (r: seq<Issue>)
    ensures IsSubseq(r, issues)
    ensures forall i :: i in r <==> i in issues && Keep(i, f)
  {
    FilterIsSubseq(issues, (i: Issue) => Keep(i, f));
    Filter(issues, (i: Issue) => Keep(i, f))
  }

  /** With an empty search and every select on "all", nothing is filtered out. */
  lemma NeutralFiltersKeepAll(issues: seq<Issue>)
    ensures FilteredIssues(issues, NeutralFilters) == issues
  {
    forall i | i in issues ensures Keep(i, NeutralFilters) {}
    FilterAllKept(issues, (i: Issue) => Keep(i, NeutralFilters));
  }

  /** An issue without a description can only match the search through its title. */
  lemma SearchWithoutDescription(i: Issue, search: string)
    requires i.description.None?
    ensures MatchesSearch(i, search) <==> search == "" || Includes(ToLower(i.title), ToLower(search))
  {
  }

  /** The "unassigned" filter keeps exactly the issues without a non-empty assigneeId; any other
      id keeps exactly the issues with that assigneeId. */
  lemma AssigneeFilterCases(i: Issue, assigneeFilter: string)
    ensures assigneeFilter == "" ==> (MatchesAssignee(i, assigneeFilter) <==> i.assigneeId.None? || i.assigneeId == Some(""))
    ensures assigneeFilter != "" && assigneeFilter != "all" ==> (MatchesAssignee(i, assigneeFilter) <==> i.assigneeId == Some(assigneeFilter))
  {
  }

  // ---------------------------------------------------------------------------
  // Columns

  datatype Column = Column(id: string, name: string, issueIds: seq<string>)

  const ColumnIds: seq<string> := ["backlog", "todo", "in_progress", "done"]

  /** The ids of the issues with the given status, in order. */
  function IdsWithStatus(issues: seq<Issue>, status: string): seq<string> {
    IssueIds(Filter(issues, (i: Issue) => i.status == status))
  }

  function Columns(issues: seq<Issue>): (r: seq<Column>)
    ensures |r| == 4
    ensures forall k :: 0 <= k < 4 ==> r[k].id == ColumnIds[k] && r[k].issueIds == IdsWithStatus(issues, ColumnIds[k])
  {
    [ Column("backlog", "Backlog", IdsWithStatus(issues, "backlog")),
      Column("todo", "To Do", IdsWithStatus(issues, "todo")),
      Column("in_progress", "In Progress", IdsWithStatus(issues, "in_progress")),
      Column("done", "Done", IdsWithStatus(issues, "done")) ]
  }

  lemma IdsWithStatusMembers(issues: seq<Issue>, status: string, x: string)
    ensures x in IdsWithStatus(issues, status) <==> exists j :: 0 <= j < |issues| && issues[j].id == x && issues[j].status == status
  {
    var kept := Filter(issues, (i: Issue) => i.status == status);
    if x in IdsWithStatus(issues, status) {
      var k :| 0 <= k < |kept| && kept[k].id == x;
      assert kept[k] in issues;
      var j :| 0 <= j < |issues| && issues[j] == kept[k];
    }
    if j :| 0 <= j < |issues| && issues[j].id == x && issues[j].status == status {
      assert issues[j] in kept;
      var k :| 0 <= k < |kept| && kept[k] == issues[j];
      assert IdsWithStatus(issues, status)[k] == x;
    }
  }

  /** An id is in a column exactly when some issue with that id has the column's status. */
  lemma ColumnMembers(issues: seq<Issue>, k: nat, x: string)
    requires k < 4
    ensures x in Columns(issues)[k].issueIds <==> exists j :: 0 <= j < |issues| && issues[j].id == x && issues[j].status == ColumnIds[k]
  {
    IdsWithStatusMembers(issues, ColumnIds[k], x);
  }

  /** With unique issue ids no id sits in two columns. */
  lemma ColumnsDisjoint(issues: seq<Issue>, k1: nat, k2: nat, x: string)
    requires UniqueIds(issues)
    requires k1 < 4 && k2 < 4 && k1 != k2
    ensures !(x in Columns(issues)[k1].issueIds && x in Columns(issues)[k2].issueIds)
  {
    ColumnMembers(issues, k1, x);
    ColumnMembers(issues, k2, x);
  }

  /** An issue whose status is none of the four column ids (for instance "review") is on no column. */
  lemma OtherStatusOnNoColumn(issues: seq<Issue>, j: nat, k: nat)
    requires UniqueIds(issues)
    requires j < |issues| && k < 4
    requires issues[j].status !in ColumnIds
    ensures issues[j].id !in Columns(issues)[k].issueIds
  {
    ColumnMembers(issues, k, issues[j].id);
  }

  /** The columns as shown: same ids, names and order, each holding the filtered issues of its status. */
  function FilteredColumns(issues: seq<Issue>, f: Filters): (r: seq<Column>)
  {
    var kept := FilteredIssues(issues, f);
    MapSeq(Columns(issues), (c: Column) => c.(issueIds := IdsWithStatus(kept, c.id)))
  }

  lemma FilteredColumnsShape(issues: seq<Issue>, f: Filters)
    ensures |FilteredColumns(issues, f)| == 4
    ensures forall k :: 0 <= k < 4 ==>
      && FilteredColumns(issues, f)[k].id == Columns(issues)[k].id
      && FilteredColumns(issues, f)[k].name == Columns(issues)[k].name
      && FilteredColumns(issues, f)[k].issueIds == IdsWithStatus(FilteredIssues(issues, f), ColumnIds[k])
      && IsSubseq(FilteredColumns(issues, f)[k].issueIds, Columns(issues)[k].issueIds)
  {
    forall k | 0 <= k < 4
      ensures IsSubseq(IdsWithStatus(FilteredIssues(issues, f), ColumnIds[k]), IdsWithStatus(issues, ColumnIds[k]))
    {
      var keep := (i: Issue) => Keep(i, f);
      var st := (i: Issue) => i.status == ColumnIds[k];
      FilterCommutes(issues, keep, st);
      FilterIsSubseq(Filter(issues, st), keep);
      MapPreservesSubseq(Filter(Filter(issues, st), keep), Filter(issues, st), (i: Issue) => i.id);
    }
  }

  // ---------------------------------------------------------------------------
  // Assignees

  /** Map.set on the insertion-ordered map keyed by user id: an existing key keeps its place
      and takes the new value, a new key goes last. */
  function UpsertAssignee(acc: seq<User>, u: User): seq<User> {
    if acc == [] then [u]
    else if acc[0].id == u.id then [u] + acc[1..]
    else [acc[0]] + UpsertAssignee(acc[1..], u)
  }

  function CollectAssignees(acc: seq<User>, issues: seq<Issue>): seq<User>
    decreases |issues|
  {
    if issues == [] then acc
    else CollectAssignees(if issues[0].assignee.Some? then UpsertAssignee(acc, issues[0].assignee.value) else acc, issues[1..])
  }

  /** The distinct assignees of the issues, in order of first appearance. */
  function Assignees(issues: seq<Issue>): seq<User> {
    CollectAssignees([], issues)
  }

  predicate DistinctUserIds(us: seq<User>) {
    forall j, k :: 0 <= j < |us| && 0 <= k < |us| && us[j].id == us[k].id ==> j == k
  }

  function UserIdSet(us: seq<User>): set<string> {
    set u | u in us :: u.id
  }

  function AssigneeIdsOf(issues: seq<Issue>): set<string> {
    set i | i in issues && i.assignee.Some? :: i.assignee.value.id
  }

  /** Prepending a user whose id is new keeps the ids distinct. */
  lemma ConsDistinct(x: User, rest: seq<User>)
    requires DistinctUserIds(rest) && x.id !in UserIdSet(rest)
    ensures DistinctUserIds([x] + rest)
    ensures UserIdSet([x] + rest) == {x.id} + UserIdSet(rest)
  {
    var r := [x] + rest;
    forall j, k | 0 <= j < |r| && 0 <= k < |r| && r[j].id == r[k].id ensures j == k {
      if j > 0 && k > 0 {
        assert rest[j - 1].id == rest[k - 1].id;
      }
    }
  }

  /** The head's id is not among the tail's ids. */
  lemma TailDistinct(acc: seq<User>)
    requires acc != [] && DistinctUserIds(acc)
    ensures DistinctUserIds(acc[1..]) && acc[0].id !in UserIdSet(acc[1..])
    ensures UserIdSet(acc) == {acc[0].id} + UserIdSet(acc[1..])
  {
    assert acc == [acc[0]] + acc[1..];
    forall v | v in acc[1..] ensures v.id != acc[0].id {
      var k :| 0 <= k < |acc[1..]| && acc[1..][k] == v;
      assert acc[k + 1] == v;
    }
  }

  lemma {:induction false} UpsertKeepsDistinct(acc: seq<User>, u: User)
    requires DistinctUserIds(acc)
    ensures DistinctUserIds(UpsertAssignee(acc, u))
    ensures UserIdSet(UpsertAssignee(acc, u)) == UserIdSet(acc) + {u.id}
  {
    if acc == [] {
      assert UserIdSet([u]) == {u.id};
    } else if acc[0].id == u.id {
      TailDistinct(acc);
      ConsDistinct(u, acc[1..]);
    } else {
      TailDistinct(acc);
      UpsertKeepsDistinct(acc[1..], u);
      ConsDistinct(acc[0], UpsertAssignee(acc[1..], u));
    }
  }

  lemma {:induction false} CollectAssigneesSpec(acc: seq<User>, issues: seq<Issue>)
    requires DistinctUserIds(acc)
    ensures DistinctUserIds(CollectAssignees(acc, issues))
    ensures UserIdSet(CollectAssignees(acc, issues)) == UserIdSet(acc) + AssigneeIdsOf(issues)
    decreases |issues|
  {
    if issues != [] {
      var i := issues[0];
      var acc' := if i.assignee.Some? then UpsertAssignee(acc, i.assignee.value) else acc;
      if i.assignee.Some? {
        UpsertKeepsDistinct(acc, i.assignee.value);
      }
      CollectAssigneesSpec(acc', issues[1..]);
      assert issues == [i] + issues[1..];
      assert AssigneeIdsOf(issues) == (if i.assignee.Some? then {i.assignee.value.id} else {}) + AssigneeIdsOf(issues[1..]);
    }
  }

  /** The assignee list has no two entries with the same id, and holds exactly the ids of the
      issues' assignees. */
  lemma AssigneesAreDistinctAssigneeIds(issues: seq<Issue>)
    ensures DistinctUserIds(Assignees(issues))
    ensures UserIdSet(Assignees(issues)) == AssigneeIdsOf(issues)
  {
    CollectAssigneesSpec([], issues);
  }

  // ---------------------------------------------------------------------------
  // Selection

  /** Remove the id when present, append it otherwise. */
  function ToggleSelection(selected: seq<string>, id: string): seq<string> {
    if id in selected then Filter(selected, (x: string) => x != id) else selected + [id]
  }

  lemma ToggleFlipsOnlyThatId(selected: seq<string>, id: string)
    ensures id in ToggleSelection(selected, id) <==> id !in selected
    ensures forall x :: x != id ==> (x in ToggleSelection(selected, id) <==> x in selected)
  {
  }

  /** Toggling the same id twice restores membership; when the id was absent it restores the list itself. */
  lemma {:induction false} ToggleTwiceRestores(selected: seq<string>, id: string)
    ensures forall x :: x in ToggleSelection(ToggleSelection(selected, id), id) <==> x in selected
    ensures id !in selected ==> ToggleSelection(ToggleSelection(selected, id), id) == selected
  {
    ToggleFlipsOnlyThatId(selected, id);
    ToggleFlipsOnlyThatId(ToggleSelection(selected, id), id);
    if id !in selected {
      FilterAppend(selected, [id], (x: string) => x != id);
      FilterAllKept(selected, (x: string) => x != id);
    }
  }

  // ---------------------------------------------------------------------------
  // Drag end, status rewrite and merge by id

  /** handleDragEnd's guards: the target column when the move goes ahead, None for each no-op
      case (no drop target, no source column, no target column, same column, unknown issue).
      The target is the first column whose id is the drop target or that holds it. */
  function DragTarget(issues: seq<Issue>, activeId: string, over: Option<string>): Option<Column> {
    if over.None? then None
    else
      var cols := Columns(issues);
      var source := FindFirst(cols, (c: Column) => activeId in c.issueIds);
      var target := FindFirst(cols, (c: Column) => c.id == over.value || over.value in c.issueIds);
      if source.None? || target.None? then None
      else if cols[source.value].id == cols[target.value].id then None
      else if FindFirst(issues, (i: Issue) => i.id == activeId).None? then None
      else Some(cols[target.value])
  }

  /** The drop target is column c itself or a card on it. */
  predicate DropMatches(c: Column, overId: string) {
    c.id == overId || overId in c.issueIds
  }

  /** Column k is the first of the board's columns that the drop target matches. */
  predicate IsDropColumn(issues: seq<Issue>, overId: string, k: int) {
    && 0 <= k < 4
    && DropMatches(Columns(issues)[k], overId)
    && forall k' :: 0 <= k' < k ==> !DropMatches(Columns(issues)[k'], overId)
  }

  /** A resolved target is the first column that is the drop target or holds it. */
  lemma DragTargetIsDropColumn(issues: seq<Issue>, activeId: string, over: Option<string>)
    ensures DragTarget(issues, activeId, over).Some? ==>
      && over.Some?
      && exists k :: IsDropColumn(issues, over.value, k) && DragTarget(issues, activeId, over).value == Columns(issues)[k]
  {
    var r := DragTarget(issues, activeId, over);
    if r.Some? {
      var t := FindFirst(Columns(issues), (c: Column) => c.id == over.value || over.value in c.issueIds).value;
      assert IsDropColumn(issues, over.value, t);
    }
  }

  /** A move goes ahead only for an issue on the board, to the first column matching the drop
      target, and only when that column is not the issue's own. */
  lemma DragTargetMoves(issues: seq<Issue>, activeId: string, over: Option<string>)
    requires UniqueIds(issues)
    ensures DragTarget(issues, activeId, over).Some? ==>
      && over.Some?
      && (DragTarget(issues, activeId, over).value.id == over.value || over.value in DragTarget(issues, activeId, over).value.issueIds)
      && (exists k :: IsDropColumn(issues, over.value, k) && DragTarget(issues, activeId, over).value == Columns(issues)[k])
      && DragTarget(issues, activeId, over).value.id in ColumnIds
      && exists j :: 0 <= j < |issues| && issues[j].id == activeId && issues[j].status in ColumnIds
                     && issues[j].status != DragTarget(issues, activeId, over).value.id
  {
    var r := DragTarget(issues, activeId, over);
    DragTargetIsDropColumn(issues, activeId, over);
    if r.Some? {
      var cols := Columns(issues);
      var s := FindFirst(cols, (c: Column) => activeId in c.issueIds).value;
      ColumnMembers(issues, s, activeId);
      var j :| 0 <= j < |issues| && issues[j].id == activeId && issues[j].status == ColumnIds[s];
      var t := FindFirst(cols, (c: Column) => c.id == over.value || over.value in c.issueIds).value;
      assert r.value == cols[t];
    }
  }

  lemma NoMatchingColumnNoOp(issues: seq<Issue>, activeId: string, overId: string)
    requires forall k :: 0 <= k < 4 ==> !DropMatches(Columns(issues)[k], overId)
    ensures DragTarget(issues, activeId, Some(overId)).None?
  {
    var tgt := FindFirst(Columns(issues), (c: Column) => c.id == overId || overId in c.issueIds);
    if tgt.Some? {
      assert DropMatches(Columns(issues)[tgt.value], overId);
    }
  }

  lemma SameColumnNoOp(issues: seq<Issue>, activeId: string, overId: string, k: int)
    requires UniqueIds(issues)
    requires IsDropColumn(issues, overId, k) && activeId in Columns(issues)[k].issueIds
    ensures DragTarget(issues, activeId, Some(overId)).None?
  {
    var cols := Columns(issues);
    var src := FindFirst(cols, (c: Column) => activeId in c.issueIds);
    var tgt := FindFirst(cols, (c: Column) => c.id == overId || overId in c.issueIds);
    assert tgt == Some(k) by {
      assert tgt.Some?;
      assert !(tgt.value < k) && !(k < tgt.value);
    }
    assert src.Some?;
    if src.value != k {
      ColumnsDisjoint(issues, src.value, k, activeId);
    }
  }

  lemma OffBoardNoOp(issues: seq<Issue>, activeId: string, over: Option<string>)
    requires UniqueIds(issues)
    requires forall j :: 0 <= j < |issues| && issues[j].id == activeId ==> issues[j].status !in ColumnIds
    ensures DragTarget(issues, activeId, over).None?
  {
    if over.Some? {
      forall k | 0 <= k < 4 ensures activeId !in Columns(issues)[k].issueIds {
        ColumnMembers(issues, k, activeId);
      }
    }
  }

  /** Dropping nowhere, dropping on something that matches no column, dropping on the dragged
      card's own column, or dragging an issue that is on no column (its status is not a column
      id) changes nothing. */
  lemma DragNoOps(issues: seq<Issue>, activeId: string, over: Option<string>)
    requires UniqueIds(issues)
    ensures over.None? ==> DragTarget(issues, activeId, over).None?
    ensures over.Some? && (forall k :: 0 <= k < 4 ==> !DropMatches(Columns(issues)[k], over.value))
            ==> DragTarget(issues, activeId, over).None?
    ensures over.Some? && (exists k :: IsDropColumn(issues, over.value, k) && activeId in Columns(issues)[k].issueIds)
            ==> DragTarget(issues, activeId, over).None?
    ensures (forall j :: 0 <= j < |issues| && issues[j].id == activeId ==> issues[j].status !in ColumnIds)
            ==> DragTarget(issues, activeId, over).None?
  {
    if over.Some? {
      if forall k :: 0 <= k < 4 ==> !DropMatches(Columns(issues)[k], over.value) {
        NoMatchingColumnNoOp(issues, activeId, over.value);
      }
      if exists k :: IsDropColumn(issues, over.value, k) && activeId in Columns(issues)[k].issueIds {
        var k :| IsDropColumn(issues, over.value, k) && activeId in Columns(issues)[k].issueIds;
        SameColumnNoOp(issues, activeId, over.value, k);
      }
    }
    if forall j :: 0 <= j < |issues| && issues[j].id == activeId ==> issues[j].status !in ColumnIds {
      OffBoardNoOp(issues, activeId, over);
    }
  }

  /** The state update after a successful PATCH: every issue with that id gets the new status. */
  function SetStatusOf(issues: seq<Issue>, id: string, status: string): seq<Issue> {
    MapSeq(issues, (i: Issue) => if i.id == id then i.(status := status) else i)
  }

  /** Only the dragged issue changes, and only in its status. */
  lemma SetStatusOnlyChangesThatIssue(issues: seq<Issue>, id: string, status: string)
    ensures |SetStatusOf(issues, id, status)| == |issues|
    ensures forall k :: 0 <= k < |issues| && issues[k].id != id ==> SetStatusOf(issues, id, status)[k] == issues[k]
    ensures forall k :: 0 <= k < |issues| && issues[k].id == id ==>
      SetStatusOf(issues, id, status)[k].status == status
      && SetStatusOf(issues, id, status)[k].(status := issues[k].status) == issues[k]
  {
  }

  /** The socket handler's merge: the issue with the incoming id is replaced, all others stay. */
  function MergeById(issues: seq<Issue>, incoming: Issue): seq<Issue> {
    MapSeq(issues, (i: Issue) => if i.id == incoming.id then incoming else i)
  }

  lemma MergeReplacesOnlySameId(issues: seq<Issue>, incoming: Issue)
    ensures |MergeById(issues, incoming)| == |issues|
    ensures forall k :: 0 <= k < |issues| ==>
      MergeById(issues, incoming)[k] == (if issues[k].id == incoming.id then incoming else issues[k])
    ensures incoming.id !in IssueIds(issues) ==> MergeById(issues, incoming) == issues
  {
    if incoming.id !in IssueIds(issues) {
      forall k | 0 <= k < |issues| ensures issues[k].id != incoming.id {
        assert IssueIds(issues)[k] == issues[k].id;
      }
    }
  }
}
