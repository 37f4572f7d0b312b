/** The kanban board page's state and handlers (apps/web/src/pages/Board.tsx). Network
    outcomes (the fetched list, whether a PATCH succeeded) are parameters of the handlers;
    each handler returns the PATCH requests it sends. */
module Board {
  import opened Common
  import opened WebTypes
  import opened BoardProjection

  /** The JSON body of a PATCH /issues/:id request. */
  datatype PatchBody =
    | StatusPatch(status: string)
    | AssigneePatch(assigneeId: Option<string>)
    | TypePatch(issueType: string)
    | PriorityPatch(priority: string)

  datatype PatchRequest = PatchRequest(issueId: string, body: PatchBody)

  /** The four bulk handlers, with the value chosen in the bulk bar. */
  datatype BulkChange =
    | BulkStatus(status: string)
    | BulkAssignee(assigneeId: string)
    | BulkType(issueType: string)
    | BulkPriority(priority: string)

  /** The body each bulk handler sends; None when its guard returns early. The status, type
      and priority handlers return on an empty value; the assignee handler has no guard and
      sends null for "" (unassign). */
  function BulkBody(change: BulkChange): (r: Option<PatchBody>)
    ensures r.None? <==> (change.BulkStatus? && change.status == "") || (change.BulkType? && change.issueType == "")
                         || (change.BulkPriority? && change.priority == "")
    ensures change.BulkAssignee? ==> r == Some(AssigneePatch(if change.assigneeId == "" then None else Some(change.assigneeId)))
  {
    match change
    case BulkStatus(s) => if s == "" then None else Some(StatusPatch(s))
    case BulkAssignee(a) => Some(AssigneePatch(if a == "" then None else Some(a)))
    case BulkType(t) => if t == "" then None else Some(TypePatch(t))
    case BulkPriority(p) => if p == "" then None else Some(PriorityPatch(p))
  }

  /** One PATCH per selected id, in selection order, all with the same body. */
  function BulkRequests(selected: seq<string>, change: BulkChange): (r: seq<PatchRequest>)
    ensures BulkBody(change).None? ==> r == []
    ensures BulkBody(change).Some? ==>
      |r| == |selected| && forall k :: 0 <= k < |selected| ==> r[k] == PatchRequest(selected[k], BulkBody(change).value)
  {
    match BulkBody(change)
    case None => []
    case Some(body) => MapSeq(selected, (id: string) => PatchRequest(id, body))
  }

  class BoardPage {
    const projectId: string
    var issues: seq<Issue>
    var loading: bool
    var activeId: Option<string>
    var filterSearch: string
    var filterStatus: string
    var filterPriority: string
    var filterAssigneeId: string
    var filterType: string
    var selectedIssueIds: seq<string>

    function CurrentFilters(): Filters
      reads this
    {
      Filters(filterSearch, filterStatus, filterPriority, filterAssigneeId, filterType)
    }

    /** The issues on display. */
    function Visible(): seq<Issue>
      reads this
    {
      FilteredIssues(issues, CurrentFilters())
    }

    constructor(projectId: string)
      ensures this.projectId == projectId
      ensures issues == [] && loading && activeId == None && selectedIssueIds == []
      ensures CurrentFilters() == NeutralFilters
    {
      this.projectId := projectId;
      issues := [];
      loading := true;
      activeId := None;
      filterSearch := "";
      filterStatus := "all";
      filterPriority := "all";
      filterAssigneeId := "all";
      filterType := "all";
      selectedIssueIds := [];
    }

    /** GET /issues?projectId=…; `response` is the fetched list, or None when the request
        fails, in which case the list is kept. Loading is off afterwards either way. */
    method FetchIssues(response: Option<seq<Issue>>)
      modifies this
      ensures issues == (if response.Some? then response.value else old(issues))
      ensures !loading
      ensures activeId == old(activeId) && selectedIssueIds == old(selectedIssueIds) && CurrentFilters() == old(CurrentFilters())
    {
      loading := true;
      if response.Some? {
        issues := response.value;
      }
      loading := false;
    }

    method SetFilterSearch(value: string)
      modifies this
      ensures CurrentFilters() == old(CurrentFilters()).(search := value)
      ensures issues == old(issues) && selectedIssueIds == old(selectedIssueIds) && activeId == old(activeId) && loading == old(loading)
    {
      filterSearch := value;
    }

    method SetFilterStatus(value: string)
      modifies this
      ensures CurrentFilters() == old(CurrentFilters()).(status := value)
      ensures issues == old(issues) && selectedIssueIds == old(selectedIssueIds) && activeId == old(activeId) && loading == old(loading)
    {
      filterStatus := value;
    }

    method SetFilterPriority(value: string)
      modifies this
      ensures CurrentFilters() == old(CurrentFilters()).(priority := value)
      ensures issues == old(issues) && selectedIssueIds == old(selectedIssueIds) && activeId == old(activeId) && loading == old(loading)
    {
      filterPriority := value;
    }

    method SetFilterAssignee(value: string)
      modifies this
      ensures CurrentFilters() == old(CurrentFilters()).(assigneeId := value)
      ensures issues == old(issues) && selectedIssueIds == old(selectedIssueIds) && activeId == old(activeId) && loading == old(loading)
    {
      filterAssigneeId := value;
    }

    method SetFilterType(value: string)
      modifies this
      ensures CurrentFilters() == old(CurrentFilters()).(issueType := value)
      ensures issues == old(issues) && selectedIssueIds == old(selectedIssueIds) && activeId == old(activeId) && loading == old(loading)
    {
      filterType := value;
    }

    /** handleResetFilters: afterwards every issue is on display again. */
    method ResetFilters()
      modifies this
      ensures CurrentFilters() == NeutralFilters
      ensures Visible() == issues
      ensures issues == old(issues) && selectedIssueIds == old(selectedIssueIds) && activeId == old(activeId) && loading == old(loading)
    {
      filterSearch := "";
      filterStatus := "all";
      filterPriority := "all";
      filterAssigneeId := "all";
      filterType := "all";
      NeutralFiltersKeepAll(issues);
    }

    method ToggleIssueSelection(id: string)
      modifies this
      ensures selectedIssueIds == ToggleSelection(old(selectedIssueIds), id)
      ensures id in selectedIssueIds <==> id !in old(selectedIssueIds)
      ensures forall x :: x != id ==> (x in selectedIssueIds <==> x in old(selectedIssueIds))
      ensures issues == old(issues) && CurrentFilters() == old(CurrentFilters()) && activeId == old(activeId) && loading == old(loading)
    {
      ToggleFlipsOnlyThatId(selectedIssueIds, id);
      selectedIssueIds := ToggleSelection(selectedIssueIds, id);
    }

    /** handleSelectAll selects exactly the issues on display, in display order. */
    method SelectAll()
      modifies this
      ensures selectedIssueIds == IssueIds(Visible())
      ensures issues == old(issues) && CurrentFilters() == old(CurrentFilters()) && activeId == old(activeId) && loading == old(loading)
    {
      selectedIssueIds := IssueIds(Visible());
    }

    method ClearSelection()
      modifies this
      ensures selectedIssueIds == []
      ensures issues == old(issues) && CurrentFilters() == old(CurrentFilters()) && activeId == old(activeId) && loading == old(loading)
    {
      selectedIssueIds := [];
    }

    /** A bulk handler: one PATCH per selected id. When every request succeeds the selection
        is cleared and the list refetched (`refetched`, None when that GET fails); when the
        guard returns early or a request fails, nothing changes. */
    method ApplyBulkChange(change: BulkChange, allSucceeded: bool, refetched: Option<seq<Issue>>)
      returns (sent: seq<PatchRequest>)
      modifies this
      ensures sent == BulkRequests(old(selectedIssueIds), change)
      ensures BulkBody(change).Some? && allSucceeded ==>
        selectedIssueIds == [] && issues == (if refetched.Some? then refetched.value else old(issues)) && !loading
      ensures !(BulkBody(change).Some? && allSucceeded) ==>
        selectedIssueIds == old(selectedIssueIds) && issues == old(issues) && loading == old(loading)
      ensures CurrentFilters() == old(CurrentFilters()) && activeId == old(activeId)
    {
      if BulkBody(change).None? {
        return [];
      }
      sent := BulkRequests(selectedIssueIds, change);
      if allSucceeded {
        ClearSelection();
        FetchIssues(refetched);
      }
    }

    method DragStart(id: string)
      modifies this
      ensures activeId == Some(id)
      ensures issues == old(issues) && selectedIssueIds == old(selectedIssueIds) && CurrentFilters() == old(CurrentFilters()) && loading == old(loading)
    {
      activeId := Some(id);
    }

    /** handleDragEnd: the drag ends in any case; a PATCH is sent only when DragTarget resolves
        a target column, and then it carries the id of the first column that is the drop target
        or holds it; the local status is rewritten only after that PATCH succeeds. */
    method DragEnd(dragged: string, over: Option<string>, patchSucceeded: bool) returns (sent: Option<PatchRequest>)
      modifies this
      ensures activeId == None
      ensures sent == (match DragTarget(old(issues), dragged, over)
                       case None => None
                       case Some(c) => Some(PatchRequest(dragged, StatusPatch(c.id))))
      ensures sent.Some? ==> over.Some? && exists k :: IsDropColumn(old(issues), over.value, k) && sent.value.body.status == ColumnIds[k]
      ensures over.Some? && (forall k :: 0 <= k < 4 ==> !DropMatches(Columns(old(issues))[k], over.value)) ==> sent.None?
      ensures issues == (if sent.Some? && patchSucceeded then SetStatusOf(old(issues), dragged, sent.value.body.status) else old(issues))
      ensures selectedIssueIds == old(selectedIssueIds) && CurrentFilters() == old(CurrentFilters()) && loading == old(loading)
    {
      DragTargetIsDropColumn(issues, dragged, over);
      if over.Some? && forall k :: 0 <= k < 4 ==> !DropMatches(Columns(issues)[k], over.value) {
        NoMatchingColumnNoOp(issues, dragged, over.value);
      }
      activeId := None;
      var target := DragTarget(issues, dragged, over);
      if target.None? {
        return None;
      }
      sent := Some(PatchRequest(dragged, StatusPatch(target.value.id)));
      if patchSucceeded {
        issues := SetStatusOf(issues, dragged, target.value.id);
      }
    }

    /** The 'issues' socket handler: an event for another project is ignored; one for this
        project replaces the issue with the same id and then refetches. */
    method OnIssuesEvent(issue: Issue, socketProjectId: string, refetched: Option<seq<Issue>>)
      modifies this
      ensures socketProjectId != projectId ==>
        issues == old(issues) && loading == old(loading)
      ensures socketProjectId == projectId ==>
        issues == (if refetched.Some? then refetched.value else MergeById(old(issues), issue)) && !loading
      ensures selectedIssueIds == old(selectedIssueIds) && CurrentFilters() == old(CurrentFilters()) && activeId == old(activeId)
    {
      if socketProjectId == projectId {
        issues := MergeById(issues, issue);
        FetchIssues(refetched);
      }
    }
  }

  /** A successful drag changes only the dragged issue, to the id of the first column that is
      the drop target or holds it, which differs from the issue's own status. */
  lemma DragEndOutcome(issues: seq<Issue>, dragged: string, over: Option<string>)
    requires UniqueIds(issues)
    ensures var t := DragTarget(issues, dragged, over);
      t.Some? ==>
        && over.Some?
        && (exists k :: IsDropColumn(issues, over.value, k) && t.value.id == ColumnIds[k]
                        && forall j :: 0 <= j < |issues| && issues[j].id == dragged ==>
                             SetStatusOf(issues, dragged, t.value.id)[j].status == ColumnIds[k])
        && t.value.id in ColumnIds
        && (forall k :: 0 <= k < |issues| && issues[k].id != dragged ==> SetStatusOf(issues, dragged, t.value.id)[k] == issues[k])
        && (forall k :: 0 <= k < |issues| && issues[k].id == dragged ==>
              issues[k].status != t.value.id && SetStatusOf(issues, dragged, t.value.id)[k].status == t.value.id)
  {
    var t := DragTarget(issues, dragged, over);
    if t.Some? {
      DragTargetMoves(issues, dragged, over);
      SetStatusOnlyChangesThatIssue(issues, dragged, t.value.id);
    }
  }
}
